/** `formatAndSavePost`: one raw post to the file the importer writes under
    `src/blog/`. The two library calls on the body, `decode` from
    html-entities and `prettier.format`, are parameters; the write itself is
    not modelled, only the name and contents handed to it. */
module PostFile {
  import opened Wrappers
  import opened Strings
  import opened WpPost
  import opened PostDate
  import opened ReadMore
  import opened Taxonomy
  import opened FrontMatter

  /** The errors the function can throw, in the order it meets them: the
      `TypeError`s of `post.date.split` on an undefined date, of `.replace` on
      undefined content and of `featuredImage.source_url` when there is no
      featured image, then the `SyntaxError` of `prettier.format` on a body its
      HTML parser rejects. */
  datatype ImportError = DateMissing | ContentMissing | FeaturedImageMissing | BodyUnformattable

  /** The file handed to `fs.writeFile`: its base name and its contents,
      `fileContents`, the front matter followed by the formatted body. */
  datatype SavedPost = SavedPost(fileName: string, frontMatter: string, body: string) {
    function Contents(): string {
      frontMatter + body
    }
  }

  const Extension: string := ".njk"

  /** A template literal's `${v}`: JavaScript writes `undefined` for a
      missing value. */
  function Interpolate(v: Option<string>): string {
    v.GetOr("undefined")
  }

  /** `get(embedded, 'wp:featuredmedia.0.media_details.sizes.full')`. */
  function FeaturedImage(embedded: Option<Embedded>): Option<Media> {
    if embedded.Some? then embedded.value.featuredMedia else None
  }

  /** `${date}-${post.slug}.njk`. */
  function FileName(date: string, slug: string): string {
    date + "-" + slug + Extension
  }

  /** Reads the slug back out of a file name, given the date it starts
      with. */
  function SlugOfFileName(name: string, date: string): Option<string> {
    if IsPrefix(date + "-", name) && IsSuffix(Extension, name) && |date| + 1 + |Extension| <= |name|
    then Some(name[|date| + 1..|name| - |Extension|])
    else None
  }

  /** The body template, before prettier: the title block, the featured
      image block and the (decoded) content block. */
  function BodyHtml(title: string, media: Media, content: string): string {
    TitleBlock(title) + FeaturedImageBlock(media) + ContentBlock(content)
  }

  function TitleBlock(title: string): string {
    "\n<div class=\"post__title\">" + title + "</div>\n"
  }

  /** The `<img>` of the featured image, its attributes one per line. */
  function FeaturedImageBlock(media: Media): string {
    FeaturedImageOpen + ImageSource(media.sourceUrl) + ImageSize(media)
  }

  const FeaturedImageOpen: string := "<div class=\"post__featured-image\">\n    <img\n        "

  function ImageSource(url: string): string {
    "src=\"" + url + "\""
  }

  function ImageSize(media: Media): string {
    "\n        loading=\"lazy\"\n        alt=\"\"\n        width=\"" + media.width
    + "\"\n        height=\"" + media.height + "\">\n</div>\n"
  }

  /** The content block, after a blank line. */
  function ContentBlock(content: string): string {
    ContentOpen + content + ContentClose
  }

  const ContentOpen: string := "\n<div class=\"post__content\">\n    "
  const ContentClose: string := "\n</div>\n\n"

  /** The front-matter values of a post whose date is present. */
  function PostFields(post: RawPost): Fields
    requires post.date.Some?
  {
    Fields(Interpolate(post.title), DatePart(post.date.value), Interpolate(post.slug),
           Categories(post.embedded), Tags(post.embedded))
  }

  /** The body template of a post whose content and featured image are
      present, its content cleaned and decoded, before prettier. */
  function BodyOf(post: RawPost, decode: string -> string): string
    requires post.content.Some? && FeaturedImage(post.embedded).Some?
  {
    BodyHtml(Interpolate(post.title), FeaturedImage(post.embedded).value,
             decode(CleanContent(post.content.value)))
  }

  /** One post to its file, or the error that stops it. `prettify` is
      `prettier.format`, `None` where it throws. */
  function FormatPost(post: RawPost, decode: string -> string, prettify: string -> Option<string>)
    : (r: Result<SavedPost, ImportError>)
    ensures r.Failure? <==>
              post.date.None? || post.content.None? || FeaturedImage(post.embedded).None?
              || prettify(BodyOf(post, decode)).None?
    ensures post.date.None? ==> r == Failure(DateMissing)
    ensures post.date.Some? && post.content.None? ==> r == Failure(ContentMissing)
    ensures post.date.Some? && post.content.Some? && FeaturedImage(post.embedded).None? ==>
              r == Failure(FeaturedImageMissing)
    ensures post.date.Some? && post.content.Some? && FeaturedImage(post.embedded).Some? ==>
              prettify(BodyOf(post, decode)).None? ==> r == Failure(BodyUnformattable)
    ensures r.Success? ==> r.value.fileName == PostFields(post).date + "-" + PostFields(post).slug + ".njk"
    ensures r.Success? ==> IsPrefix(PostFields(post).date, post.date.value)
    ensures r.Success? ==> r.value.frontMatter == Render(PostFields(post))
    ensures r.Success? ==> r.value.body == prettify(BodyOf(post, decode)).value
    ensures r.Success? ==>
              r.value.Contents() == Render(PostFields(post)) + prettify(BodyOf(post, decode)).value
  {
    if post.date.None? then Failure(DateMissing)
    else
      var date := DatePart(post.date.value);
      var title := Interpolate(post.title);
      if post.content.None? then Failure(ContentMissing)
      else
        var content := CleanContent(post.content.value);
        var frontMatter := Render(Fields(title, date, Interpolate(post.slug),
                                         Categories(post.embedded), Tags(post.embedded)));
        match FeaturedImage(post.embedded)
        case None => Failure(FeaturedImageMissing)
        case Some(media) =>
          match prettify(BodyHtml(title, media, decode(content)))
          case None => Failure(BodyUnformattable)
          case Some(body) => Success(SavedPost(FileName(date, Interpolate(post.slug)), frontMatter, body))
  }

  /** The file name gives back the slug, given the date it was built from. */
  lemma SlugOfFileNameOf(date: string, slug: string)
    ensures SlugOfFileName(FileName(date, slug), date) == Some(slug)
  {
  }

  /** A post dated `day + "T" + time` is saved as `<day>-<slug>.njk`. */
  lemma FileNameOfPost(post: RawPost, decode: string -> string, prettify: string -> Option<string>,
                       day: string, time: string)
    requires 'T' !in day && post.date == Some(day + "T" + time)
    requires FormatPost(post, decode, prettify).Success?
    ensures FormatPost(post, decode, prettify).value.fileName == day + "-" + Interpolate(post.slug) + ".njk"
    ensures SlugOfFileName(FormatPost(post, decode, prettify).value.fileName, day) == Some(Interpolate(post.slug))
  {
    DatePartOfTimestamp(day, time);
    SlugOfFileNameOf(day, Interpolate(post.slug));
  }

  /** The line reader gives the generated front matter back as the post's
      title, date part, slug, categories and tags, whatever the body and the
      library calls do. */
  lemma FrontMatterOfPost(post: RawPost, decode: string -> string, prettify: string -> Option<string>)
    requires FormatPost(post, decode, prettify).Success?
    requires SingleLine(PostFields(post))
    ensures Parse(FormatPost(post, decode, prettify).value.frontMatter) == Some(PostFields(post))
  {
    ParseRender(PostFields(post));
  }
}
