/**
  The orchestrator: one run of the site generator, as the list of files it
  writes and what it returns. The output directory is `<directory>/doc-site`;
  the stylesheet, the script and the font are bundled bytes copied verbatim,
  and `index.html` is the sanitized rendering of the page.

  Directory removal and creation and the writes themselves are effects on the
  file system; the run is the plan of writes, carried out in order, and the
  files afterwards are the files before with the four writes applied. The
  directory removal only succeeds on an empty directory and its failure is
  ignored, so files from an earlier run stay where they are.
 */
module Site {
  import opened Dom
  import opened Summary
  import Page
  import Sanitizer

  newtype byte = x: int | 0 <= x < 256

  /** The three assets compiled into the generator: opaque byte strings. */
  datatype Bundle = Bundle(styleCss: seq<byte>, scriptJs: seq<byte>, font: seq<byte>)

  /** What a write puts into a file: bundled bytes, or the HTML document
      that gets serialized into `index.html`. */
  datatype Payload = Bytes(data: seq<byte>) | Html(document: Document)

  /** A file-system path as its list of components. */
  type Path = seq<string>

  datatype FileWrite = FileWrite(path: Path, payload: Payload)

  /** The result of a run. The error type of the run has no variants, so
      `Ok(())` is the only value a run can return; failures to create the
      directory or to write a file abort the process instead of returning. */
  datatype Returned = Ok

  datatype Run = Run(writes: seq<FileWrite>, returned: Returned)

  const SiteDirectory: string := "doc-site"
  const StyleFile: string := "style.css"
  const ScriptFile: string := "script.js"
  const FontFile: string := "Uiua386.ttf"
  const IndexFile: string := "index.html"

  /** The output directory: the site directory joined onto the base directory. */
  function OutputDirectory(directory: Path): (out: Path)
    ensures |out| == |directory| + 1
    ensures out[..|directory|] == directory && out[|directory|] == SiteDirectory
  {
    directory + [SiteDirectory]
  }

  /** The write of one file into the output directory. */
  function SaveStaticFile(outputDirectory: Path, file: string, content: Payload): (w: FileWrite)
    ensures |w.path| == |outputDirectory| + 1
    ensures w.path[..|outputDirectory|] == outputDirectory
    ensures w.path[|outputDirectory|] == file
    ensures w.payload == content
  {
    FileWrite(outputDirectory + [file], content)
  }

  /** Rendering the view to markup and parsing that markup back: a call
      into the rendering framework and the HTML parser, taken here as a
      parameter. */
  type Renderer = Document -> Document

  /** What the generator expects of the renderer for a page: the document it
      hands back is the page with comment nodes and hydration markers added
      and nothing else changed. */
  predicate Renders(render: Renderer, page: Document)
  {
    Sanitizer.Decorates(page.children, render(page).children)
  }

  /** The document written to `index.html`: the rendered page with the
      renderer's comments and markers taken out. Whatever the renderer does,
      the result is clean and is exactly what the rendered document
      decorates. */
  function GenerateHtml(summary: seq<Section>, render: Renderer): (d: Document)
    ensures Sanitizer.Clean(d)
    ensures Sanitizer.Decorates(d.children, render(Page.GeneratePage(summary)).children)
  {
    Sanitizer.DecoratesSanitized(render(Page.GeneratePage(summary)).children);
    Sanitizer.Sanitize(render(Page.GeneratePage(summary)))
  }

  /** With a renderer that only adds comments and markers, `index.html` holds
      the page exactly as built. */
  lemma HtmlIsPage(summary: seq<Section>, render: Renderer)
    requires Renders(render, Page.GeneratePage(summary))
    ensures GenerateHtml(summary, render) == Page.GeneratePage(summary)
  {
    Sanitizer.DecoratesIffSanitizes(Page.GeneratePage(summary), render(Page.GeneratePage(summary)));
  }

  /** Rendering that adds nothing at all meets the expectation, since the
      page is built clean. */
  lemma PlainRendering(summary: seq<Section>)
    ensures Renders(d => d, Page.GeneratePage(summary))
  {
    Page.PageIsClean(summary);
    Sanitizer.DecoratesClean(Page.GeneratePage(summary));
  }

  /** The four writes of a run, given the output directory and the page to
      write: the three bundled assets, then the page. */
  function WritePlan(out: Path, bundle: Bundle, index: Document): (writes: seq<FileWrite>)
    ensures |writes| == 4
    ensures forall w :: w in writes ==> |w.path| == |out| + 1 && w.path[..|out|] == out
  {
    [ SaveStaticFile(out, StyleFile, Bytes(bundle.styleCss)),
      SaveStaticFile(out, ScriptFile, Bytes(bundle.scriptJs)),
      SaveStaticFile(out, FontFile, Bytes(bundle.font)),
      SaveStaticFile(out, IndexFile, Html(index)) ]
  }

  /** One run: the writes into `<directory>/doc-site`, then `Ok`. */
  function GenerateDocumentationSite(directory: Path, summary: seq<Section>, bundle: Bundle, render: Renderer): (run: Run)
    ensures run.returned == Ok
    ensures FileNames(run.writes) == ["style.css", "script.js", "Uiua386.ttf", "index.html"]
    ensures forall i, j :: 0 <= i < j < |run.writes| ==> run.writes[i].path != run.writes[j].path
    ensures |run.writes| == 4
    ensures forall w :: w in run.writes ==> |w.path| == |directory| + 2 && w.path[..|directory| + 1] == directory + ["doc-site"]
    ensures run.writes[3].payload.Html? && Sanitizer.Clean(run.writes[3].payload.document)
  {
    var out := OutputDirectory(directory);
    var page := GenerateHtml(summary, render);
    PlanOrder(out, bundle, page);
    PlanTargetsDistinct(out, bundle, page);
    Run(WritePlan(OutputDirectory(directory), bundle, GenerateHtml(summary, render)), Ok)
  }

  /** The name of each written file, in write order. */
  function FileNames(writes: seq<FileWrite>): seq<string>
    decreases writes
  {
    if writes == [] then []
    else
      var p := writes[0].path;
      [if p == [] then "" else p[|p| - 1]] + FileNames(writes[1..])
  }

  /** The files after the writes, starting from the files already there:
      each path holds the payload last written to it, and a path nothing is
      written to keeps what it held. */
  function Contents(before: map<Path, Payload>, writes: seq<FileWrite>): map<Path, Payload>
    decreases |writes|
  {
    if writes == [] then before
    else
      var last := writes[|writes| - 1];
      Contents(before, writes[..|writes| - 1])[last.path := last.payload]
  }

  /** One of the four files a run writes into `out`. */
  predicate Written(out: Path, p: Path)
  {
    p == out + [StyleFile] || p == out + [ScriptFile] || p == out + [FontFile] || p == out + [IndexFile]
  }

  /** The plan writes the stylesheet, the script, the font and the page, in
      that order. */
  lemma PlanOrder(out: Path, bundle: Bundle, index: Document)
    ensures FileNames(WritePlan(out, bundle, index)) == ["style.css", "script.js", "Uiua386.ttf", "index.html"]
  {
    var w := WritePlan(out, bundle, index);
    assert w[0].path == out + [StyleFile];
    assert w[1].path == out + [ScriptFile];
    assert w[2].path == out + [FontFile];
    assert w[3].path == out + [IndexFile];
    assert FileNames(w[3..]) == [IndexFile];
    assert FileNames(w[2..]) == [FontFile, IndexFile];
    assert FileNames(w[1..]) == [ScriptFile, FontFile, IndexFile];
  }

  /** After the plan the four files hold the three bundled assets byte for
      byte and the page; every other file that was there is still there,
      unchanged. */
  lemma PlanContents(out: Path, bundle: Bundle, index: Document, before: map<Path, Payload>)
    ensures Contents(before, WritePlan(out, bundle, index)) == before[
        out + ["style.css"] := Bytes(bundle.styleCss)][
        out + ["script.js"] := Bytes(bundle.scriptJs)][
        out + ["Uiua386.ttf"] := Bytes(bundle.font)][
        out + ["index.html"] := Html(index)]
    ensures var after := Contents(before, WritePlan(out, bundle, index));
      forall p :: p in before && !Written(out, p) ==> p in after && after[p] == before[p]
    ensures var after := Contents(before, WritePlan(out, bundle, index));
      forall p :: p in after <==> p in before || Written(out, p)
  {
    var w := WritePlan(out, bundle, index);
    assert Contents(before, w[..1]) == before[out + ["style.css"] := Bytes(bundle.styleCss)];
    assert w[..2][..1] == w[..1];
    assert Contents(before, w[..2]) == Contents(before, w[..1])[out + ["script.js"] := Bytes(bundle.scriptJs)];
    assert w[..3][..2] == w[..2];
    assert Contents(before, w[..3]) == Contents(before, w[..2])[out + ["Uiua386.ttf"] := Bytes(bundle.font)];
    assert w[..3] == w[..|w| - 1];
  }

  /** The four files are four different files. */
  lemma PlanTargetsDistinct(out: Path, bundle: Bundle, index: Document)
    ensures var w := WritePlan(out, bundle, index);
      forall i, j :: 0 <= i < j < |w| ==> w[i].path != w[j].path
  {
    var w := WritePlan(out, bundle, index);
    var n := |out|;
    assert w[0].path[n] == StyleFile && w[1].path[n] == ScriptFile;
    assert w[2].path[n] == FontFile && w[3].path[n] == IndexFile;
    assert forall i, j :: 0 <= i < j < 4 ==> w[i].path[n] != w[j].path[n];
  }

  /** The asset writes of a plan do not depend on the page, and two plans
      agree exactly when their pages do. */
  lemma PlanDeterminedByIndex(out: Path, bundle: Bundle, i1: Document, i2: Document)
    ensures WritePlan(out, bundle, i1)[..3] == WritePlan(out, bundle, i2)[..3]
    ensures WritePlan(out, bundle, i1) == WritePlan(out, bundle, i2) <==> i1 == i2
  {
    if WritePlan(out, bundle, i1) == WritePlan(out, bundle, i2) {
      assert WritePlan(out, bundle, i1)[3].payload == Html(i1);
    }
  }

  /** What each of the four planned writes carries. */
  lemma PlanPayloads(out: Path, bundle: Bundle, index: Document)
    ensures var w := WritePlan(out, bundle, index);
      w[0].payload == Bytes(bundle.styleCss) && w[1].payload == Bytes(bundle.scriptJs) &&
      w[2].payload == Bytes(bundle.font) && w[3].payload == Html(index)
  {
  }

  /** A run carries out the plan for `<directory>/doc-site` with the page as
      built, and returns `Ok`. */
  lemma RunIsPlan(directory: Path, summary: seq<Section>, bundle: Bundle, render: Renderer)
    requires Renders(render, Page.GeneratePage(summary))
    ensures GenerateDocumentationSite(directory, summary, bundle, render)
      == Run(WritePlan(directory + ["doc-site"], bundle, Page.GeneratePage(summary)), Ok)
  {
    HtmlIsPage(summary, render);
  }

  /** After a run, `<directory>/doc-site` holds the three bundled assets byte
      for byte and the generated page under their four names; any other file
      that was already there is kept (removing a non-empty directory fails
      and the failure is ignored). */
  lemma SiteContents(directory: Path, summary: seq<Section>, bundle: Bundle, render: Renderer,
                     before: map<Path, Payload>)
    requires Renders(render, Page.GeneratePage(summary))
    ensures var out := directory + ["doc-site"];
      Contents(before, GenerateDocumentationSite(directory, summary, bundle, render).writes) == before[
        out + ["style.css"] := Bytes(bundle.styleCss)][
        out + ["script.js"] := Bytes(bundle.scriptJs)][
        out + ["Uiua386.ttf"] := Bytes(bundle.font)][
        out + ["index.html"] := Html(Page.GeneratePage(summary))]
    ensures var after := Contents(before, GenerateDocumentationSite(directory, summary, bundle, render).writes);
      forall p :: p in before && !Written(directory + ["doc-site"], p) ==> p in after && after[p] == before[p]
  {
    RunIsPlan(directory, summary, bundle, render);
    PlanContents(directory + ["doc-site"], bundle, Page.GeneratePage(summary), before);
  }

  /** Running again with the same input leaves the same files: the second
      run's directory removal fails on the non-empty directory, and its four
      writes put back what is already there. */
  lemma RerunSame(directory: Path, summary: seq<Section>, bundle: Bundle, render: Renderer,
                  before: map<Path, Payload>)
    ensures var w := GenerateDocumentationSite(directory, summary, bundle, render).writes;
      Contents(Contents(before, w), w) == Contents(before, w)
  {
    var out := directory + ["doc-site"];
    var page := GenerateHtml(summary, render);
    var once := Contents(before, WritePlan(out, bundle, page));
    PlanContents(out, bundle, page, before);
    PlanContents(out, bundle, page, once);
  }

  /** The assets do not depend on the summary; the page depends on it only
      through the outline. Two summaries give the same run exactly when their
      outlines agree. */
  lemma RunDeterminedByOutline(directory: Path, s1: seq<Section>, s2: seq<Section>, bundle: Bundle, render: Renderer)
    requires Renders(render, Page.GeneratePage(s1)) && Renders(render, Page.GeneratePage(s2))
    ensures GenerateDocumentationSite(directory, s1, bundle, render).writes[..3]
      == GenerateDocumentationSite(directory, s2, bundle, render).writes[..3]
    ensures GenerateDocumentationSite(directory, s1, bundle, render) == GenerateDocumentationSite(directory, s2, bundle, render)
      <==> Page.Outline(s1) == Page.Outline(s2)
  {
    var p1, p2 := Page.GeneratePage(s1), Page.GeneratePage(s2);
    Page.PageDeterminedByOutline(s1, s2);
    RunIsPlan(directory, s1, bundle, render);
    RunIsPlan(directory, s2, bundle, render);
    PlanDeterminedByIndex(directory + ["doc-site"], bundle, p1, p2);
  }

  /** An empty summary still writes all four files; the page has an empty
      sidebar pane and its content pane still holds the placeholder. */
  lemma EmptySummaryRun(directory: Path, bundle: Bundle, render: Renderer)
    requires Renders(render, Page.GeneratePage([]))
    ensures var w := GenerateDocumentationSite(directory, [], bundle, render).writes;
      |w| == 4 &&
      w[0].payload == Bytes(bundle.styleCss) &&
      w[1].payload == Bytes(bundle.scriptJs) &&
      w[2].payload == Bytes(bundle.font) &&
      w[3].payload.Html? &&
      Page.FindClass(w[3].payload.document.children, "sidebar") == Page.Some([]) &&
      Page.FindClass(w[3].payload.document.children, "content") == Page.Some([Text("TODO")])
  {
    var page := Page.GeneratePage([]);
    RunIsPlan(directory, [], bundle, render);
    PlanPayloads(directory + ["doc-site"], bundle, page);
    Page.EmptySummary();
  }
}
