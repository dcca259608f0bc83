/** The records the fetch pipeline reads from the providers and hands back to its caller. */
module Feed {
  import opened Outcomes

  /**
   * What a JSON object holds under one key: nothing (the key is absent),
   * JSON null, or a string.
   */
  datatype Field = Absent | Null | Text(text: string) {
    /**
     * `d.get(key, default)`: the default when the key is absent, `None` for
     * JSON null, the string otherwise.
     */
    function Get(default: Option<string>): Option<string> {
      match this
      case Absent => default
      case Null => None
      case Text(s) => Some(s)
    }
  }

  /**
   * A JSON object nested in a post, of which the pipeline reads one field:
   * `link` is that field and `otherKeys` counts the object's remaining keys.
   * For `image` the field is `uri`, for `video_files` it is `video_hd_file`,
   * for an album item `image_file_uri`.
   */
  datatype JsonObject = JsonObject(link: Field, otherKeys: nat)

  /**
   * One post as the Facebook provider returns it. `url` and `message` are
   * fields that may be absent or null. `image`, `video_files` and
   * `album_preview` are only ever tested for truthiness first, so a null
   * value and an absent key are both `None`; `image` and `video_files` are
   * nested objects and `album_preview` is a list of them.
   */
  datatype RawPost = RawPost(
    url: Field,
    message: Field,
    image: Option<JsonObject>,
    videoFiles: Option<JsonObject>,
    albumPreview: Option<seq<JsonObject>>)

  /**
   * A post in the uniform shape the service returns: `{url, content, media}`.
   * `None` is JSON null: a media entry whose object lacked the link or held
   * null, or a `url`/`content` the provider sent as null.
   */
  datatype NormalizedPost = NormalizedPost(url: Option<string>, content: Option<string>, media: seq<Option<string>>)

  /** `{url, posts}`: the recent posts of one profile or page. */
  datatype SourceResult = SourceResult(url: string, posts: seq<NormalizedPost>)

  /** The canonical X profile URL under which a Twitter result is reported. */
  function XProfileUrl(username: string): string {
    "https://x.com/" + username
  }
}
