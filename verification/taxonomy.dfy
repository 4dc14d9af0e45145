/** Categories and tags: the slug lists read from `wp:term` and the block
    `getAndFormatTaxonomy` writes after `categories:` / `tags:`. */
module Taxonomy {
  import opened Wrappers
  import opened Strings
  import opened WpPost

  /** The `wp:term` group holding categories. */
  const CategoryGroup: nat := 0
  /** The `wp:term` group holding tags. */
  const TagGroup: nat := 1

  /** One list entry line, `- <slug>`. */
  function Entry(slug: string): string {
    "- " + slug
  }

  function Entries(slugs: seq<string>): (r: seq<string>)
    ensures |r| == |slugs|
  {
    seq(|slugs|, i requires 0 <= i < |slugs| => Entry(slugs[i]))
  }

  /** Reference definition of the block: a newline, then the entry lines
      joined by newlines. */
  function TaxonomyText(slugs: seq<string>): string {
    [NL] + Join(Entries(slugs), NL)
  }

  /** The lines the block contributes after its key's line: the entries, or
      one empty line when there are none. */
  function BlockLines(slugs: seq<string>): (r: seq<string>)
    ensures |r| >= 1
  {
    if |slugs| == 0 then [""] else Entries(slugs)
  }

  predicate NoNewline(slugs: seq<string>) {
    forall i :: 0 <= i < |slugs| ==> NL !in slugs[i]
  }

  /** `getAndFormatTaxonomy`. The early return of '' is guarded by
      `!Array.isArray(taxonomy) && !taxonomy.length`, which is false for every
      array, so the block always starts with a newline. */
  method FormatTaxonomy(taxonomy: seq<string>) returns (output: string)
    ensures output == TaxonomyText(taxonomy)
    ensures |output| >= 1 && output[0] == NL
    ensures |taxonomy| == 0 ==> output == "\n"
  {
    output := "\n";
    var i := 0;
    while i < |taxonomy|
      invariant 0 <= i <= |taxonomy|
      invariant i == 0 ==> output == "\n"
      invariant 0 < i < |taxonomy| ==> output == TaxonomyText(taxonomy[..i]) + "\n"
      invariant 0 < i == |taxonomy| ==> output == TaxonomyText(taxonomy[..i])
    {
      EntriesStep(taxonomy, i);
      output := output + "- " + taxonomy[i];
      if i < |taxonomy| - 1 {
        output := output + "\n";
      }
      i := i + 1;
    }
    assert taxonomy[..i] == taxonomy;
  }

  lemma EntriesSnoc(slugs: seq<string>, slug: string)
    ensures Entries(slugs + [slug]) == Entries(slugs) + [Entry(slug)]
  {
  }

  /** One more loop round appends the next entry, after a newline unless it
      is the first. */
  lemma EntriesStep(slugs: seq<string>, i: nat)
    requires i < |slugs|
    ensures i == 0 ==> TaxonomyText(slugs[..i + 1]) == "\n" + "- " + slugs[i]
    ensures i > 0 ==> TaxonomyText(slugs[..i + 1]) == TaxonomyText(slugs[..i]) + "\n" + "- " + slugs[i]
  {
    assert slugs[..i + 1] == slugs[..i] + [slugs[i]];
    EntriesSnoc(slugs[..i], slugs[i]);
    var es := Entries(slugs[..i]);
    if i > 0 {
      JoinSnoc(es, Entry(slugs[i]), NL);
      assert [NL] + (Join(es, NL) + [NL] + Entry(slugs[i]))
          == ([NL] + Join(es, NL)) + "\n" + "- " + slugs[i];
    } else {
      assert es + [Entry(slugs[i])] == [Entry(slugs[i])];
    }
  }

  /** Read line by line, the block is an empty line (the one its leading
      newline ends) followed by one `- slug` line per slug in input order,
      with no trailing newline; an empty list leaves one empty line. */
  lemma TaxonomyLines(slugs: seq<string>)
    requires NoNewline(slugs)
    ensures Split(TaxonomyText(slugs), NL) == [""] + BlockLines(slugs)
  {
    assert TaxonomyText(slugs) == "" + [NL] + Join(Entries(slugs), NL);
    SplitConcat("", NL, Join(Entries(slugs), NL));
    SplitNoSep("", NL);
    EntryLines(slugs);
  }

  /** The entries, joined, split back into the block's lines. */
  lemma EntryLines(slugs: seq<string>)
    requires NoNewline(slugs)
    ensures Split(Join(Entries(slugs), NL), NL) == BlockLines(slugs)
  {
    var es := Entries(slugs);
    if |slugs| == 0 {
      SplitNoSep("", NL);
    } else {
      forall k | 0 <= k < |es| ensures NL !in es[k] {
        assert es[k] == "- " + slugs[k];
      }
      SplitJoin(es, NL);
    }
  }

  /** The slugs of `wp:term[k]`, or `[]` when that group is absent. */
  function GroupSlugs(embedded: Option<Embedded>, k: nat): (r: seq<string>)
    ensures embedded.None? || k >= |embedded.value.terms| ==> r == []
    ensures embedded.Some? && k < |embedded.value.terms| ==>
              |r| == |embedded.value.terms[k]| &&
              forall i :: 0 <= i < |r| ==> r[i] == embedded.value.terms[k][i].slug
  {
    if embedded.Some? && k < |embedded.value.terms| then SlugsOf(embedded.value.terms[k])
    else []
  }

  function Categories(embedded: Option<Embedded>): seq<string> {
    GroupSlugs(embedded, CategoryGroup)
  }

  function Tags(embedded: Option<Embedded>): seq<string> {
    GroupSlugs(embedded, TagGroup)
  }

  /** The `slug` of each term object, in order. */
  function SlugsOf(group: seq<Term>): (r: seq<string>)
    ensures |r| == |group|
  {
    seq(|group|, i requires 0 <= i < |group| => group[i].slug)
  }

  /** With `wp:term = [cs, ts]`, categories are the slugs of `cs` and tags
      those of `ts`; with only `[cs]`, or no `_embedded`, the missing lists
      are empty. */
  lemma CategoriesAndTags(media: Option<Media>, cs: seq<Term>, ts: seq<Term>)
    ensures Categories(Some(Embedded(media, [cs, ts]))) == SlugsOf(cs)
    ensures Tags(Some(Embedded(media, [cs, ts]))) == SlugsOf(ts)
    ensures Categories(Some(Embedded(media, [cs]))) == SlugsOf(cs)
    ensures Tags(Some(Embedded(media, [cs]))) == []
    ensures Categories(None) == [] && Tags(None) == []
  {
  }
}
