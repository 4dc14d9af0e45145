/** Worked examples of the import: concrete posts and what the importer
    makes of them. */
module PostExamples {
  import opened Wrappers
  import opened Strings
  import opened WpPost
  import opened PostDate
  import opened Taxonomy
  import opened FrontMatter
  import opened PostFile

  /** A post dated `day + "T" + time` with slug `slug`, one category `c` and
      no tags: its front-matter values are those, and the line reader gives
      them back from the front matter `FormatPost` saves for it, `Render` of
      those values. */
  lemma OneCategoryNoTags(post: RawPost, day: string, time: string, slug: string, title: string, c: string)
    requires 'T' !in day && NL !in day && NL !in slug && NL !in title && NL !in c
    requires post.date == Some(day + "T" + time) && post.slug == Some(slug) && post.title == Some(title)
    requires post.embedded.Some? && post.embedded.value.terms == [[Term(c)], []]
    ensures PostFields(post) == Fields(title, day, slug, [c], [])
    ensures Parse(Render(PostFields(post))) == Some(Fields(title, day, slug, [c], []))
  {
    DatePartOfTimestamp(day, time);
    assert SlugsOf([Term(c)]) == [c];
    var f := PostFields(post);
    assert f == Fields(title, day, slug, [c], []);
    ParseRender(f);
  }

  /** The block for one category and no tags, line by line: a single `- c`
      entry under `categories:` and one empty line under `tags:`. */
  lemma OneCategoryNoTagsLines(f: Fields, c: string)
    requires f.categories == [c] && f.tags == [] && SingleLine(f)
    ensures Split(Render(f), NL)
            == [Fence, "title: >", "    " + f.title, "date: " + f.date, "permalink: " + f.slug + "/",
                LayoutLine, "categories: ", "- " + c, "tags: ", "", Fence, ""]
  {
    RenderLines(f);
    assert Entries([c]) == [Entry(c)];
    assert BlockLines(f.categories) == ["- " + c];
    assert BlockLines(f.tags) == [""];
  }

  /** The body carries the featured image's URL and the content. */
  lemma BodyCarriesImageAndContent(title: string, media: Media, content: string)
    ensures Contains(BodyHtml(title, media, content), ImageSource(media.sourceUrl))
    ensures Contains(BodyHtml(title, media, content), content)
  {
    var fi := FeaturedImageBlock(media);
    var cb := ContentBlock(content);
    ContainsMiddle(FeaturedImageOpen, ImageSource(media.sourceUrl), ImageSize(media));
    ContainsWithin(TitleBlock(title), fi, cb, ImageSource(media.sourceUrl));
    ContainsMiddle(ContentOpen, content, ContentClose);
    ContainsWithin(TitleBlock(title) + fi, cb, [], content);
    assert TitleBlock(title) + fi + cb + [] == BodyHtml(title, media, content);
  }
}
