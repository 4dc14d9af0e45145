/** The WordPress REST post object as the importer reads it (`?_embed`
    response). A field JavaScript could find `undefined` is an `Option`. */
module WpPost {
  import opened Wrappers

  /** One taxonomy term object of `_embedded['wp:term'][k]`; only its `slug`
      is read. */
  datatype Term = Term(slug: string)

  /** `media_details.sizes.full` of the first featured media object, with
      `width` and `height` in the text form a template literal gives them. */
  datatype Media = Media(sourceUrl: string, width: string, height: string)

  /** The `_embedded` bag. `featuredMedia` is `None` when any step of the
      path `wp:featuredmedia.0.media_details.sizes.full` is missing; `terms`
      is `wp:term`, with an absent or null array read as `[]`. */
  datatype Embedded = Embedded(featuredMedia: Option<Media>, terms: seq<seq<Term>>)

  /** A raw post: `date`, `slug`, `title.rendered`, `content.rendered` and
      `_embedded`. */
  datatype RawPost = RawPost(
    date: Option<string>,
    slug: Option<string>,
    title: Option<string>,
    content: Option<string>,
    embedded: Option<Embedded>)
}
