/** The front-matter block written at the head of every post file, and a
    line reader that inverts it: no two sets of values without newlines give
    the same block. The reader is not a YAML parser. */
module FrontMatter {
  import opened Wrappers
  import opened Strings
  import opened Taxonomy

  /** The values the template interpolates. */
  datatype Fields = Fields(
    title: string,
    date: string,
    slug: string,
    categories: seq<string>,
    tags: seq<string>)

  const Fence: string := "---"
  const LayoutLine: string := "layout: post.njk"

  /** The template literal: fence, `title` as a folded scalar on an indented
      line, `date`, `permalink: <slug>/`, the fixed layout, the two taxonomy
      blocks and the closing fence, each line ended by a newline. */
  function Render(f: Fields): string {
    Head(f) + TaxonomyText(f.categories) + [NL]
    + "tags: " + TaxonomyText(f.tags) + [NL]
    + Fence + [NL]
  }

  /** The block's lines, keys in their fixed order; the text ends in a
      newline, so the last piece after it is empty. */
  function Lines(f: Fields): seq<string> {
    HeadLines(f) + BlockLines(f.categories) + ["tags: "] + BlockLines(f.tags) + [Fence, ""]
  }

  /** The lines before the category block. */
  function HeadLines(f: Fields): seq<string> {
    [Fence, "title: >", "    " + f.title, "date: " + f.date,
     "permalink: " + f.slug + "/", LayoutLine, "categories: "]
  }

  predicate SingleLine(f: Fields) {
    NL !in f.title && NL !in f.date && NL !in f.slug
    && NoNewline(f.categories) && NoNewline(f.tags)
  }

  /** The text of the first seven lines, up to `categories: `: the opening
      fence, `title` as a folded scalar on an indented line, `date`,
      `permalink: <slug>/` and the fixed layout. */
  function Head(f: Fields): string {
    Fence + [NL] + "title: >" + [NL] + ("    " + f.title) + [NL] + ("date: " + f.date)
    + [NL] + ("permalink: " + f.slug + "/") + [NL] + LayoutLine + [NL] + "categories: "
  }

  /** The fixed text of the template holds newlines only between lines. */
  lemma FixedTextSingleLine()
    ensures NL !in Fence && NL !in "title: >" && NL !in "    " && NL !in "date: "
    ensures NL !in "permalink: " && NL !in "/" && NL !in LayoutLine
    ensures NL !in "categories: " && NL !in "tags: " && NL !in ""
  {
  }

  /** Seven single lines joined by newlines split back into themselves. */
  lemma SplitSevenLines(l0: string, l1: string, l2: string, l3: string,
                        l4: string, l5: string, l6: string)
    requires NL !in l0 && NL !in l1 && NL !in l2 && NL !in l3
    requires NL !in l4 && NL !in l5 && NL !in l6
    ensures Split(l0 + [NL] + l1 + [NL] + l2 + [NL] + l3 + [NL] + l4 + [NL] + l5 + [NL] + l6, NL)
            == [l0, l1, l2, l3, l4, l5, l6]
  {
    var p1 := l0 + [NL] + l1;
    var p2 := p1 + [NL] + l2;
    var p3 := p2 + [NL] + l3;
    var p4 := p3 + [NL] + l4;
    var p5 := p4 + [NL] + l5;
    SplitNoSep(l0, NL);
    SplitLine(l0, NL, l1);
    SplitLine(p1, NL, l2);
    SplitLine(p2, NL, l3);
    SplitLine(p3, NL, l4);
    SplitLine(p4, NL, l5);
    SplitLine(p5, NL, l6);
  }

  lemma HeadSplit(f: Fields)
    requires SingleLine(f)
    ensures Split(Head(f), NL) == HeadLines(f)
  {
    FixedTextSingleLine();
    SplitSevenLines(Fence, "title: >", "    " + f.title, "date: " + f.date,
                    "permalink: " + f.slug + "/", LayoutLine, "categories: ");
  }

  /** A newline-led block and a single line after a text split as the
      text's lines, the block's lines and that line. */
  lemma SplitBlockThenLine(h: string, j: string, t: string)
    requires NL !in t
    ensures Split(h + ([NL] + j) + [NL] + t, NL) == Split(h, NL) + Split(j, NL) + [t]
  {
    var p := h + [NL] + j;
    assert h + ([NL] + j) == p;
    SplitConcat(h, NL, j);
    SplitLine(p, NL, t);
  }

  /** Splitting the text after the head: the two blocks' texts split on
      their own, around the single `tags: ` line and the closing fence. */
  lemma SplitTail(h: string, jc: string, t: string, jt: string, fence: string)
    requires NL !in t && NL !in fence
    ensures Split(h + ([NL] + jc) + [NL] + t + ([NL] + jt) + [NL] + fence + [NL], NL)
            == Split(h, NL) + Split(jc, NL) + [t] + Split(jt, NL) + [fence, ""]
  {
    var p8 := h + ([NL] + jc) + [NL] + t;
    SplitBlockThenLine(h, jc, t);
    SplitBlockThenLine(p8, jt, fence);
    var p10 := p8 + ([NL] + jt) + [NL] + fence;
    assert p10 + [NL] == p10 + [NL] + "";
    SplitConcat(p10, NL, "");
    SplitNoSep("", NL);
  }

  /** Read as lines, the rendered block is exactly `Lines(f)` when no value
      holds a newline. */
  lemma RenderLines(f: Fields)
    requires SingleLine(f)
    ensures Split(Render(f), NL) == Lines(f)
  {
    FixedTextSingleLine();
    HeadSplit(f);
    EntryLines(f.categories);
    EntryLines(f.tags);
    SplitTail(Head(f), Join(Entries(f.categories), NL), "tags: ", Join(Entries(f.tags), NL), Fence);
  }

  /** Whatever the values, the block opens with the fence line and closes
      with the fence line and its newline. */
  lemma RenderFenced(f: Fields)
    ensures IsPrefix(Fence + [NL], Render(f))
    ensures IsSuffix(Fence + [NL], Render(f))
  {
  }

  /** The entry lines `- <slug>` back to their slugs. */
  function ParseEntries(block: seq<string>): (r: Option<seq<string>>)
    ensures r.Some? ==> |r.value| == |block|
  {
    if |block| == 0 then Some([])
    else if !IsPrefix("- ", block[0]) then None
    else
      match ParseEntries(block[1..])
      case None => None
      case Some(rest) => Some([block[0][2..]] + rest)
  }

  /** A taxonomy block's lines back to its slugs; one empty line is the
      empty list. */
  function ParseBlock(block: seq<string>): Option<seq<string>> {
    if block == [""] then Some([])
    else if |block| == 0 then None
    else ParseEntries(block)
  }

  /** Reads the seven head lines back into title, date and slug, checking
      every fixed line. */
  function ParseHead(head: seq<string>): Option<(string, string, string)> {
    if |head| != 7 || head[0] != Fence || head[1] != "title: >"
       || !IsPrefix("    ", head[2]) || !IsPrefix("date: ", head[3])
       || !IsPrefix("permalink: ", head[4]) || |head[4]| < 12 || !IsSuffix("/", head[4])
       || head[5] != LayoutLine || head[6] != "categories: "
    then None
    else Some((head[2][4..], head[3][6..], head[4][11..|head[4]| - 1]))
  }

  /** Reads the lines after `categories: `: the category block up to the
      first `tags: ` line, then the tag block up to the closing fence. */
  function ParseTaxonomies(rest: seq<string>): Option<(seq<string>, seq<string>)> {
    match IndexOf(rest, ["tags: "])
    case None => None
    case Some(k) =>
      var after := rest[k + 1..];
      if |after| < 2 || after[|after| - 2..] != [Fence, ""] then None
      else
        match (ParseBlock(rest[..k]), ParseBlock(after[..|after| - 2]))
        case (Some(cs), Some(ts)) => Some((cs, ts))
        case _ => None
  }

  /** Reads `Lines` back into the fields. */
  function ParseLines(ls: seq<string>): Option<Fields> {
    if |ls| < 7 then None
    else
      match (ParseHead(ls[..7]), ParseTaxonomies(ls[7..]))
      case (Some(h), Some(t)) => Some(Fields(h.0, h.1, h.2, t.0, t.1))
      case _ => None
  }

  function Parse(text: string): Option<Fields> {
    ParseLines(Split(text, NL))
  }

  lemma {:induction false} ParseEntriesOf(slugs: seq<string>)
    ensures ParseEntries(Entries(slugs)) == Some(slugs)
    decreases |slugs|
  {
    if |slugs| > 0 {
      var es := Entries(slugs);
      assert es[0] == "- " + slugs[0];
      assert es[1..] == Entries(slugs[1..]);
      ParseEntriesOf(slugs[1..]);
      assert [slugs[0]] + slugs[1..] == slugs;
    }
  }

  lemma ParseBlockOf(slugs: seq<string>)
    ensures ParseBlock(BlockLines(slugs)) == Some(slugs)
  {
    ParseEntriesOf(slugs);
    if |slugs| > 0 {
      assert Entries(slugs)[0] == "- " + slugs[0];
    }
  }

  /** No line of a taxonomy block is the `tags: ` line. */
  lemma BlockHasNoTagsKey(slugs: seq<string>)
    ensures forall j :: 0 <= j < |BlockLines(slugs)| ==> BlockLines(slugs)[j] != "tags: "
  {
    forall j | 0 <= j < |BlockLines(slugs)| ensures BlockLines(slugs)[j] != "tags: " {
      if |slugs| > 0 {
        assert BlockLines(slugs)[j] == "- " + slugs[j];
        assert BlockLines(slugs)[j][0] == '-';
      }
    }
  }

  /** The first `tags: ` line after the category block is the one the
      template writes. */
  lemma TagsLineIndex(bc: seq<string>, rest: seq<string>)
    requires forall j :: 0 <= j < |bc| ==> bc[j] != "tags: "
    ensures IndexOf(bc + ["tags: "] + rest, ["tags: "]) == Some(|bc|)
  {
    var ls := bc + ["tags: "] + rest;
    forall j | 0 <= j < |bc| ensures !OccursAt(ls, ["tags: "], j) {
      assert ls[j..j + 1] == [bc[j]];
    }
    assert ls[|bc|..|bc| + 1] == ["tags: "];
    assert OccursAt(ls, ["tags: "], |bc|);
    var r := IndexOf(ls, ["tags: "]);
    assert r.Some?;
    assert !(r.value < |bc|);
    assert !(r.value > |bc|);
  }

  lemma ParseHeadOf(f: Fields)
    ensures ParseHead(HeadLines(f)) == Some((f.title, f.date, f.slug))
  {
  }

  lemma ParseTaxonomiesOf(cs: seq<string>, ts: seq<string>)
    ensures ParseTaxonomies(BlockLines(cs) + ["tags: "] + (BlockLines(ts) + [Fence, ""]))
            == Some((cs, ts))
  {
    var bc, bt := BlockLines(cs), BlockLines(ts);
    var rest := bc + ["tags: "] + (bt + [Fence, ""]);
    BlockHasNoTagsKey(cs);
    TagsLineIndex(bc, bt + [Fence, ""]);
    var after := rest[|bc| + 1..];
    assert after == bt + [Fence, ""];
    assert rest[..|bc|] == bc;
    assert after[..|after| - 2] == bt;
    ParseBlockOf(cs);
    ParseBlockOf(ts);
  }

  /** Round trip: reading the lines of the block gives back every field,
      including both slug lists in order. */
  lemma ParseLinesOf(f: Fields)
    ensures ParseLines(Lines(f)) == Some(f)
  {
    var ls := Lines(f);
    assert ls[..7] == HeadLines(f);
    assert ls[7..] == BlockLines(f.categories) + ["tags: "] + (BlockLines(f.tags) + [Fence, ""]);
    ParseHeadOf(f);
    ParseTaxonomiesOf(f.categories, f.tags);
  }

  /** Round trip on text: the line reader gives a block whose values hold
      no newline back as exactly the fields it was rendered from. */
  lemma ParseRender(f: Fields)
    requires SingleLine(f)
    ensures Parse(Render(f)) == Some(f)
  {
    RenderLines(f);
    ParseLinesOf(f);
  }
}
