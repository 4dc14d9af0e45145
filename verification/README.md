# WordPress post import, modelled in Dafny

`tools/import.js` is a command-line importer. It fetches posts from a WordPress
REST endpoint (`/wp-json/wp/v2/posts?page=…&per_page=…&_embed`) and writes each
post as an Eleventy template, `src/blog/<date>-<slug>.njk`. Each file has a YAML
front-matter block followed by the post's HTML body. This project models the
deterministic part of that: `formatAndSavePost`, which turns one raw post into a
file name and file contents, and the start-up configuration (`--loop`,
`--save-images`, and the `page` / `per_page` check on `--url`).

Modules, one per concern of the script:

- `Wrappers`: `Option` for values JavaScript may leave `undefined`, and `Result`
  for the steps that throw.
- `Strings`: first-occurrence search (`indexOf`), first-occurrence removal
  (`replace` with a string pattern), and line splitting and joining.
- `WpPost`: the raw post object with its `_embedded` terms and featured media.
- `PostDate`: `post.date.split('T')[0]`.
- `ReadMore`: removal of the `<!--more-->` marker.
- `Taxonomy`: the `wp:term` slug lists and `getAndFormatTaxonomy`.
- `FrontMatter`: the front-matter template, plus a line reader that inverts
  it. The reader shows that no two sets of values without newlines give the
  same block; it is not a YAML parser (see "## Left out").
- `PostFile`: `formatAndSavePost` as one function from a post to a file or an
  error.
- `PostExamples`: worked examples over whole posts.
- `Cli`: the `WPLOOP` / `WPSAVEIMAGES` flags and the URL query check.

Modelling choices:

- **Thrown errors.**
  - `post.date.split` on an undefined date throws a `TypeError`.
  - So does `.replace` on undefined content.
  - So does `featuredImage.source_url` when there is no featured image.
  - `prettier.format` throws a `SyntaxError` on a body its HTML parser
    rejects. For example, `decode` turns `&lt;/div&gt;` in the content into
    an unmatched closing tag.

  `PostFile.FormatPost` returns these as `Failure(DateMissing)`,
  `Failure(ContentMissing)`, `Failure(FeaturedImageMissing)` and
  `Failure(BodyUnformattable)`, in the order the function meets them.
- **Missing title or slug.** A missing title or slug is interpolated as the
  text `undefined`, as a template literal does.
- **Library calls.** `decode` (html-entities) and `prettier.format` are
  function parameters. The `prettier.format` parameter returns `None` where
  it would throw.
- **File name.** It is the base name handed to `path.join`.
- **Empty taxonomy.** `getAndFormatTaxonomy` guards its early `return ''` with
  `!Array.isArray(taxonomy) && !taxonomy.length`. That is false for every array,
  so an empty slug list gives `"\n"`, not `""`.
- **Permalink.** The permalink line is `permalink: <slug>/`.

## Model

| member | source | states |
|---|---|---|
| PostDate.DatePart | tools/import.js:55 | The date is a prefix of `post.date`, contains no `T`, is followed in `post.date` by a `T` when shorter than it, and is all of `post.date` when that has no `T` |
| PostDate.DatePartOfTimestamp | tools/import.js:54-55 | A timestamp `day + "T" + time` yields exactly `day`, whatever `time` holds |
| ReadMore.CleanContent | tools/import.js:62-63 | Without a `<!--more-->` the content is unchanged; with one the result is exactly 11 characters shorter |
| ReadMore.CleanContentAt | tools/import.js:62-63 | Only the first marker is removed: the text before it is kept, putting it back restores the content, and every later marker survives 11 characters to the left |
| ReadMore.RemovalCanFormMarker | tools/import.js:62-63 | Removal is a single pass: when the text around the first marker is the marker split in two, the cleaned content is a marker again, and a second cleaning gives the empty text |
| ReadMore.NestedMarker | tools/import.js:62-63 | `<!--<!--more-->more-->` is such a text: its two halves around the marker make up the marker, and no marker starts earlier |
| Strings.RemoveFirstAt | tools/import.js:63 | `replace` with a string pattern at its first occurrence `i`: the result is the text before `i` followed by the text after the pattern, and later occurrences shift left by the pattern's length |
| Taxonomy.FormatTaxonomy | tools/import.js:80-92 | The loop's output equals a newline followed by the `- slug` entries joined by newlines. It always starts with a newline, and an empty list gives exactly `"\n"` |
| Taxonomy.EntriesStep | tools/import.js:85-90 | One loop round appends `- slug[i]`, preceded by a newline except in the first round |
| Taxonomy.TaxonomyLines | tools/import.js:84-91 | Read as lines, the block is one empty line and then exactly one `- slug` line per slug, in input order, with no trailing newline |
| Taxonomy.GroupSlugs | tools/import.js:93-94 | An absent `_embedded` or term group gives `[]`. Otherwise the result has one slug per term object, in order |
| Taxonomy.CategoriesAndTags | tools/import.js:93-94 | Categories come from `wp:term[0]` and tags from `wp:term[1]`. A missing group or `_embedded` gives an empty list |
| FrontMatter.RenderLines | tools/import.js:97-106 | The template's lines, in their fixed order, are: the fence, `title: >`, the indented title, `date:`, `permalink: <slug>/`, `layout: post.njk`, `categories:` with its block, `tags:` with its block, and the closing fence followed by a newline |
| FrontMatter.RenderFenced | tools/import.js:97-106 | For any values, the block starts with `---\n` and ends with `---\n` |
| FrontMatter.ParseLinesOf | tools/import.js:97-106 | Reading the template's lines back gives every field, including both slug lists in order |
| FrontMatter.ParseRender | tools/import.js:97-106 | Round trip: the line reader, applied to the rendered block, gives back the title, date, slug, categories and tags |
| PostFile.FormatPost | tools/import.js:53-136 | Fails exactly when date, content or featured image is missing or prettier rejects the body. The error is the first one the code meets: date, then content, then featured image, then prettier. On success: the file name is `<date part>-<slug>.njk`, and the date part is a prefix of `post.date`. The front matter is the rendered template of the post's fields. The body is prettier's output for the title, image and decoded cleaned content. The file contents are the front matter followed by that body |
| PostFile.SlugOfFileNameOf | tools/import.js:129 | Given its date, the file name `<date>-<slug>.njk` gives back the slug |
| PostFile.FileNameOfPost | tools/import.js:129 | A post dated `day + "T" + time` is saved as `<day>-<slug>.njk`, and the slug can be read back from that name |
| PostFile.FrontMatterOfPost | tools/import.js:93-106 | When no value holds a newline, the line reader gives back the front matter of a saved post as its title, date part, slug, categories and tags, whatever `decode` and `prettier` do |
| PostExamples.OneCategoryNoTags | tools/import.js:93-106 | For a post dated `day + "T" + time` with one category `c`, no tags and no newline in its values, the front-matter values are title, `day`, slug, `[c]` and `[]`, and the line reader gives them back from the rendered front matter that `FormatPost` saves |
| PostExamples.OneCategoryNoTagsLines | tools/import.js:97-106 | With one category `c` and no tags, the block's lines are the fixed head, a single `- c` line under `categories:`, one empty line under `tags:`, and the closing fence |
| PostExamples.BodyCarriesImageAndContent | tools/import.js:109-124 | The body template contains the featured image's `src="…"` attribute and the content |
| Cli.FlagEnabledIff | tools/import.js:23-24 | A flag is on if and only if its argument is present and is `true` in some mix of upper and lower case. An absent argument leaves it off |
| Cli.ReadSettings | tools/import.js:23-24 | `WPLOOP` and `WPSAVEIMAGES` hold exactly when `--loop` and `--save-images`, respectively, spell `true` in any case |
| Cli.QueryGet | tools/import.js:34-35 | `searchParams.get` finds a value if and only if the key occurs, and that value comes from the first pair with the key |
| Cli.AppendKeepsGet | tools/import.js:41 | Appending a parameter does not change `get` for a key already present |
| Cli.CheckConfig | tools/import.js:27-41 | A missing or empty URL is rejected first, then a URL the parser rejects. Then a missing or empty `page` or `per_page` is rejected, carrying both values. Otherwise the query gains the pair `_embed=` at its end while `page` and `per_page` keep their values |

## Left out

- **HTTP fetch and pagination** (tools/import.js:138-155): `axios.get`, the `rest_post_invalid_page_number` check and the unimplemented loop. These are network I/O.
- **`decode` and `prettier.format`** (tools/import.js:121, :125): foreign library calls. Both are opaque parameters: `decode` is `string -> string`, and `prettier.format` is `string -> Option<string>`, with `None` for a body it throws on.
- **`fs.writeFile` and its callback** (tools/import.js:130-135): file I/O. The model stops at the name and contents handed to it.
- **`path.join` with `__dirname`** (tools/import.js:129): directory plumbing. The file name is the base name `<date>-<slug>.njk`.
- **`console.log` and `logErrorAndExit`** (tools/import.js:47-51, :56, :70): output and `process.exit`. A configuration failure is an error result instead.
- **URL parsing by Node's `URL`** (tools/import.js:33): a library call. The query parameters arrive already decoded, as an ordered list of pairs. A URL the parser throws on arrives as `None`.
- **yargs**: a library. Arguments arrive as strings or absent. The `TypeError` yargs' number or boolean coercion would cause in `.toLowerCase()` is not modelled.
- Cli.LowerChar: lowers only ASCII letters. The flag statements still hold for full Unicode: no non-ASCII character lowercases to a letter of `true`.
- **The save-images branch** (tools/import.js:72-74): it only logs. Post images (tools/import.js:76-77) are a `TODO` with no code.
- **Commented-out legacy code** (tools/import.js:157-189): it has no behaviour.
- **`width` and `height`**: number-to-text formatting is not modelled. They are carried as the text the template literal produces.
- **`slug` parameter of `getAndFormatTaxonomy`**: unused by the code, so the model omits it.
- FrontMatter.ParseRender: the round trip is stated only for values without a newline. A title, date, slug or taxonomy slug holding a newline changes the block's line structure.
- PostFile.FormatPost: states the body only up to the opaque `prettify` parameter. The model does not know what prettier does to the HTML or which HTML it rejects. In the code, a rejected body also ends the whole run through the `catch` at tools/import.js:153-154; here it is an error result for that post.
- **Reading the block as YAML**: what a YAML reader gets from the block is not modelled. The line reader inverts the template, but a YAML reader returns different values in four ways:
  - `title: >` folds with clip chomping, so the title comes back with a newline appended.
  - `date:` comes back as a timestamp.
  - An empty `categories:` or `tags:` block comes back as null, not `[]`.
  - A slug such as `123` or `true` comes back as a number or a boolean.
- **`null` values**: lodash `get` returns `null` for a null `title.rendered`, and a null `slug` is `null` too. The template prints these as `null`, not `undefined`; the model has only present or absent (`undefined`).
- **Terms without a `slug`**: `map(({ slug }) => slug)` gives `undefined` for such a term, which prints as `- undefined`. The model's term objects always carry a slug.
