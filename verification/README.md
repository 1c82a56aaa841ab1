# uiua-doc-gen site generator, modelled in Dafny

This project models the site generator of uiua-doc-gen (`src/generator.rs`).
The generator takes a summary of documentation sections and builds one HTML page from it.
The page has a sidebar that lists each section's title and links.
The generator then strips the rendering framework's artifacts from the parsed page: comment nodes and `data-hk` hydration attributes.
Finally it writes four files into `<directory>/doc-site`: `style.css`, `script.js` and `Uiua386.ttf` (bundled bytes) and `index.html` (the page).

Modules, one per component:

- `Dom` (`dom.dfy`): the abstract document tree (`Element | Text | Comment | Doctype` under a `Document`).
  It also defines the predicates "no comment anywhere" and "no element carries attribute *n*".
  `Tokens` is the document-order walk of a tree (open, close, leaf).
  It serves as an independent view of "what the tree says" and shows that nothing else changes.
- `Sanitizer` (`sanitizer.dfy`): the comment pass and the `data-hk` pass of `generate_html`, and their composition `Sanitize`.
- `Summary` (`summary.dfy`): sections, items and links, plus `FlatLinks`, the order-preserving `flat_map` of a section's item links (src/generator.rs:102-103).
- `Page` (`page.dfy`): the page builder.
  `GeneratePage` is `generate_page` (src/generator.rs:60-93) and `Sidebar` is `generate_sidebar` (src/generator.rs:95-115).
  `SectionBlock` is one section's `sidebar-section` block (src/generator.rs:99-110) and `LinkEntry` is one `li > a` entry (src/generator.rs:104-106).
  These builders carry no contracts of their own; the lemmas in the table state what they build.
  `Frame` is the fixed part of the page around the head, the navigation bar and the two panes.
  It also holds independent readers for the built page:
  - `FindClass`, which finds the first element with a given class in document order;
  - `ReadNavigation`, which reads the sidebar back as titled groups of links;
  - `Anchors`, which lists every anchor in document order.
- `Site` (`site.dfy`): `GenerateDocumentationSite`, the run of `generate_documentation_site` (src/generator.rs:11-27) as its write plan and its result, and the files it leaves behind.
- `Seqs` (`seqs.dfy`): small regrouping facts about sequence concatenation that the page proofs use.

The main results:

- The sanitized document never contains a comment or a `data-hk` attribute, and sanitizing is idempotent.
- Apart from that, sanitizing changes the document-order walk only by deleting comment steps and removing `data-hk` from element steps.
- Reading the page's sidebar back returns the summary's outline: one group per section, in order, holding the section's links flattened item by item.
- The page's anchors are all the summary's links in input order.
- The page's document-order walk is the fixed skeleton with the sidebar's walk spliced in.
- Sanitizing undoes decoration exactly: a rendered document sanitizes to a page iff it is that page with comment nodes and `data-hk` attributes added.
- The page is built clean, so when the renderer only adds such artifacts, `index.html` holds the page exactly as built.
- A run writes the three assets verbatim and then the page, each into a different file in `<directory>/doc-site`, and returns `Ok`.
- After a run, those four files hold what was written, and every other file that was there before keeps its contents.
- Running again with the same input leaves the same files.

Rendering the view to markup and parsing that markup back (src/generator.rs:35-36) is a call into the view framework and the HTML parser.
The model takes it as a parameter, `Site.Renderer`.
The one hypothesis about it is `Site.Renders`: the document it hands back is the page with comment nodes and `data-hk` attributes added, and nothing else changed (`Sanitizer.Decorates`).
The sanitizer's own properties, and the cleanliness of `index.html`, hold for every renderer.

`remove_dir` at src/generator.rs:13 removes a directory only when it is empty, and the run ignores its failure.
So files from an earlier run stay in `<directory>/doc-site`.
The model therefore starts from the files already present, and the run overwrites only its four files.

## Model

| member | source | states |
|---|---|---|
| `Sanitizer.DropAttr` | src/generator.rs:51 | the result has no attribute with the given name; an attribute is in the result iff it was in the input under another name; input without that name comes back unchanged |
| `Sanitizer.StripComments` | src/generator.rs:38-44 | the result has no comment at any depth; comment-free input comes back unchanged; some element of the result carries a `data-hk` attribute iff some element of the input did (`StripCommentsTokens` states exactly what changes) |
| `Sanitizer.StripMarker` | src/generator.rs:46-52 | no element of the result carries `data-hk`; input without it comes back unchanged; the number of top-level nodes is kept; the result holds a comment iff the input did (`StripMarkerTokens` states exactly what changes) |
| `Sanitizer.Sanitize` | src/generator.rs:38-52 | the sanitized document is clean (no comment, no `data-hk`), including at the document's top level; a document comes back unchanged exactly when it was already clean |
| `Sanitizer.SanitizeIdempotent` | src/generator.rs:38-52 | sanitizing twice gives the same document as sanitizing once |
| `Sanitizer.StripCommentsTokens` | src/generator.rs:38-44 | removing comments changes the document-order walk only by deleting the comment steps; every element keeps its tag, attributes and non-comment children in order, and text is untouched |
| `Sanitizer.StripMarkerTokens` | src/generator.rs:46-52 | removing markers changes the walk only by removing `data-hk` from element steps; elements, other attributes in order, texts and comments stay |
| `Sanitizer.SanitizeTokens` | src/generator.rs:38-52 | the sanitized document's walk is the original walk with comment steps deleted and `data-hk` removed from every element step, and nothing else changed |
| `Sanitizer.PassesCommute` | src/generator.rs:38-52 | the comment pass and the marker pass give the same tree in either order |
| `Sanitizer.DropAttrAppend` | src/generator.rs:46-52 | removing `data-hk` from a run of attributes removes it from each part separately, so the remaining attributes keep their order |
| `Sanitizer.MarkedIffDropped` | src/generator.rs:46-52 | an attribute list is a plain list with `data-hk` attributes interleaved iff removing `data-hk` from it gives the plain list |
| `Sanitizer.DecoratesSanitized` | src/generator.rs:38-52 | every forest is its own sanitized form with comments and markers added: sanitizing removes only what a renderer could have added |
| `Sanitizer.SanitizesDecorated` | src/generator.rs:38-52 | a forest that decorates a page sanitizes back to exactly that page |
| `Sanitizer.DecoratesIffSanitizes` | src/generator.rs:38-52 | a rendered document sanitizes to a page iff it is that page with comments and `data-hk` attributes added and nothing else changed |
| `Sanitizer.DecoratesClean` | src/generator.rs:38-52 | a clean document, left undecorated, counts as a decoration of itself |
| `Summary.FlatLinksLength` | src/generator.rs:102-103 | flattening a section's items gives exactly as many links as the items hold in total, with no de-duplication |
| `Summary.FlatLinksIndex` | src/generator.rs:102-103 | link `j` of item `i` appears at position (links of items before `i`) + `j`, so item order and link order are kept |
| `Summary.FlatLinksMembers` | src/generator.rs:102-103 | a link is among the flattened links iff some item of the section holds it |
| `Summary.ExampleOrder` | src/generator.rs:97-108 | sections A (one item with links l1, l2) and B (one item with l3) give the links [l1, l2, l3] in that order |
| `Page.ReadLinksOfList` | src/generator.rs:104-107 | the `li > a` entries built for a list of links read back as exactly those links, with `href` equal to the url and text equal to the title |
| `Page.ReadGroupsOfSidebar` | src/generator.rs:97-113 | the sidebar holds one `sidebar-section` block per section, in input order; each block reads back, from a `div.section-name` and a `ul`, as the section's title and its flattened links |
| `Page.TextNodesReadBack` | src/generator.rs:100-105 | a title becomes one text node, or no node when the title is empty, and either reads back as exactly the title; being at most one leaf, it holds no anchor, no class, no comment and no `data-hk` |
| `Page.FindSidebar` | src/generator.rs:82-84 | the first `.sidebar` element of the page holds exactly the sidebar blocks for the summary |
| `Page.ContentPane` | src/generator.rs:85-87 | the `content` pane holds only the text `TODO`, whatever the summary |
| `Page.ReadNavigationOfPage` | src/generator.rs:82-113 | the navigation read off the generated page is the summary's outline: titles in order, each with its links in item-then-link order |
| `Page.EmptySummary` | src/generator.rs:82-87 | an empty summary gives a `div.sidebar` with no children, no navigation groups, and the `content` pane with `TODO` |
| `Page.PageDeterminedByOutline` | src/generator.rs:60-113 | two summaries give the same page iff their titles and flattened links agree; how links are split across items never shows |
| `Page.SectionBlockShape` | src/generator.rs:99-109 | a section block's `ul` has one entry per link of the section's items; link `j` of item `i` becomes the `li > a` at that link's flattened position |
| `Page.AnchorsOfList` | src/generator.rs:104-107 | the anchors of a link list are exactly its links in order, each with `href` = url and text = title |
| `Page.AnchorsOfPage` | src/generator.rs:60-113 | the page's anchors, in document order, are all links of all sections in input order (section, then item, then link) |
| `Page.FrameClasses` | src/generator.rs:60-93 | the page frame carries only the class `mobile-container`; a lookup of any other class that the head and the bar do not answer lands in the panes |
| `Page.FrameClean` | src/generator.rs:60-93 | the page frame adds no comment and no `data-hk`: the page is clean exactly when its head, bar and panes are |
| `Page.PageIsClean` | src/generator.rs:60-93 | the built page holds no comment and no `data-hk`, so sanitizing leaves it unchanged |
| `Page.PageTokens` | src/generator.rs:60-93 | the page's document-order walk is a fixed skeleton (doctype; head with title, metas, stylesheet and script; mobile nav; the two panes) with the sidebar's walk spliced in; nothing outside the sidebar depends on the summary |
| `Site.OutputDirectory` | src/generator.rs:12 | the output directory is the base directory with the component `doc-site` appended |
| `Site.SaveStaticFile` | src/generator.rs:29-32 | a save writes its payload unchanged to a path inside the output directory whose last component is the file name |
| `Site.GenerateHtml` | src/generator.rs:34-58 | whatever the renderer returns, the `index.html` document is clean, and the rendered document is it with comments and markers added |
| `Site.HtmlIsPage` | src/generator.rs:34-58 | when the renderer only adds comments and markers to the page, the `index.html` document is the page exactly as built |
| `Site.PlainRendering` | src/generator.rs:34-58 | a renderer that adds nothing meets that hypothesis for every summary, because the page is built clean |
| `Site.WritePlan` | src/generator.rs:16-19 | a run plans exactly four writes, each to a file directly inside the output directory |
| `Site.PlanOrder` | src/generator.rs:16-19 | the files are written in the order `style.css`, `script.js`, `Uiua386.ttf`, `index.html` |
| `Site.PlanContents` | src/generator.rs:16-19 | after the writes the four paths hold the three bundled payloads and the page; every other file present before keeps its contents, and no other file appears |
| `Site.PlanTargetsDistinct` | src/generator.rs:16-19 | the four writes go to four different paths |
| `Site.RunIsPlan` | src/generator.rs:11-27 | with a renderer that only adds comments and markers, a run carries out the four-write plan into `directory/doc-site` with the built page, and returns `Ok` |
| `Site.GenerateDocumentationSite` | src/generator.rs:11-27 | whatever the renderer does, a run returns `Ok` after exactly four writes: `style.css`, `script.js`, `Uiua386.ttf`, `index.html` in that order, to four different files directly inside `directory/doc-site`, the last one a clean document |
| `Site.SiteContents` | src/generator.rs:11-19 | after a run, the four files in `directory/doc-site` hold the three bundled payloads byte for byte and the built page; every other file that was there before, including leftovers the failed `remove_dir` kept, is unchanged |
| `Site.RerunSame` | src/generator.rs:11-19 | a second run with the same input after a first leaves exactly the files the first run left |
| `Site.RunDeterminedByOutline` | src/generator.rs:11-19 | the three asset writes do not depend on the summary; two summaries give the same run iff their outlines agree |
| `Site.EmptySummaryRun` | src/generator.rs:11-19 | an empty summary still writes all three assets unchanged and a page whose sidebar pane is empty and whose content pane holds `TODO` |

## Left out

- Rendering with the view framework (src/generator.rs:35) is a parameter, not a model of the library. Its HTML escaping of titles and urls is not modelled, and no escaping property is claimed. The results about the page in `index.html` hold under the hypothesis `Site.Renders`.
- HTML parsing and serialization (src/generator.rs:36, 55-57) are not modelled. `Dom.Tokens` is a document-order walk without escaping, not the library's serializer. Parsing and serializing are assumed to succeed, as the source's `unwrap`s demand.
- The parser library's lazy traversal while nodes are detached (src/generator.rs:39-44) is not modelled. `Sanitizer.StripComments` models the intended result: every comment node removed.
- `Sanitizer.DropAttr` works on an attribute sequence and removes every attribute named `data-hk`, keeping the others in order (`Sanitizer.DropAttrAppend`). The parser library keeps attributes in a map keyed by name, so at most one exists; the order in which the library serializes that map is not modelled.
- Class selectors: `Page.FindClass` matches an exact `class` value, not one class among several; this suffices for the page built here.
- Filesystem effects (src/generator.rs:13-14, 29-32) are modelled only as their outcome: the files before the run, updated by the four writes (`Site.Contents`). That `remove_dir` empties nothing follows from its failure on a non-empty directory being ignored; the case of an already empty directory, which it does remove and `create_dir_all` recreates, gives the same files. Directories as such and the panics of the `expect`s are not modelled.
- The bytes bundled with `include_bytes!` (src/generator.rs:16-18) are opaque parameters (`Site.Bundle`), not the actual asset files.
- The error type at src/generator.rs:9 is an enum with no variants. Dafny cannot declare an empty datatype, so the run's result is the one-value datatype `Site.Returned = Ok`. A run therefore always returns `Ok` by construction.
- `DocumentationSection` and its items are defined in `src/summarizer.rs`, which is not part of this model. Only `title`, `content` and `links[].{url, title}` are modelled.
- The commented-out comment-extraction code (src/generator.rs:21-24) is not modelled.
- Determinism of the output is not stated as a lemma: every operation here is a function, so it is deterministic by construction.
