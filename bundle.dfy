/** The Download button: a zip of six files built from the editors, or,
    when the zip library cannot be had or fails, the combined page alone;
    when that fails too, an alert. Loading the library, compressing and
    starting the browser download are outside the model; whether each
    attempt succeeds is given as a parameter. */
module Bundle {
  import Document
  import opened Wrappers

  datatype Entry = Entry(name: string, content: string)

  datatype Download =
    | Zip(fileName: string, entries: seq<Entry>)
    | SinglePage(fileName: string, content: string)
    | Alert(message: string)

  /** index.html: a viewer that shows preview.html in a full-size frame. */
  const IndexViewer: string :=
    "<!doctype html>\n"
    + "\t<html>\n"
    + "\t<head><meta charset=\"utf-8\"><meta name=\"viewport\" content=\"width=device-width,initial-scale=1\"><title>Preview - Mini CodePen</title>\n"
    + "\t<style>html,body{height:100%;margin:0}iframe{width:100%;height:100%;border:0}</style>\n"
    + "\t</head>\n"
    + "\t<body><iframe src=\"preview.html\" sandbox=\"allow-scripts allow-same-origin\"></iframe></body>\n"
    + "\t</html>"

  /** README.txt: lists the files of the archive. */
  const Readme: string :=
    "Mini CodePen export\n"
    + "\t\tFiles:\n"
    + "\t\t - preview.html  (combined runnable page)\n"
    + "\t\t - code.html     (your HTML)\n"
    + "\t\t - code.css      (your CSS)\n"
    + "\t\t - code.js       (your JS)\n"
    + "\t\t - index.html    (viewer that opens preview.html)\n"
    + "\t\t\n"
    + "\t\tOpen index.html in a browser or open preview.html directly.\n"
    + "\t\t"

  const ArchiveName: string := "mini-codepen.zip"
  const PageName: string := "preview.html"
  const FailureMessage: string := "Download failed."

  /** The files added to the archive, in the order they are added: six of
      them, under distinct names. */
  function ExportEntries(html: string, css: string, js: string): (es: seq<Entry>)
    ensures |es| == 6 && DistinctNames(es)
  {
    [ Entry(PageName, Document.BuildSrcDoc(html, css, js)),
      Entry("code.html", html),
      Entry("code.css", css),
      Entry("code.js", js),
      Entry("index.html", IndexViewer),
      Entry("README.txt", Readme) ]
  }

  /** The content stored under `name`, if an entry has that name. */
  function Lookup(entries: seq<Entry>, name: string): Option<string>
  {
    if entries == [] then None
    else if entries[0].name == name then Some(entries[0].content)
    else Lookup(entries[1..], name)
  }

  predicate DistinctNames(entries: seq<Entry>)
  {
    forall i, j :: 0 <= i < j < |entries| ==> entries[i].name != entries[j].name
  }

  /** With distinct names, looking up an entry's name finds that entry. */
  lemma {:induction false} LookupFinds(entries: seq<Entry>, i: nat)
    requires DistinctNames(entries) && i < |entries|
    ensures Lookup(entries, entries[i].name) == Some(entries[i].content)
  {
    if i > 0 {
      assert entries[0].name != entries[i].name;
      assert DistinctNames(entries[1..]) by {
        forall a, b | 0 <= a < b < |entries| - 1
          ensures entries[1..][a].name != entries[1..][b].name
        {
          assert entries[1..][a] == entries[a + 1] && entries[1..][b] == entries[b + 1];
        }
      }
      LookupFinds(entries[1..], i - 1);
    }
  }

  /** One click of the Download button. Exactly one outcome: the full
      archive, or, only when the archive fails, the combined page alone, or,
      only when that fails too, the alert. The single page is the one the
      archive would have held. */
  function Export(zipWorks: bool, pageWorks: bool, html: string, css: string, js: string): (d: Download)
    ensures d.Zip? <==> zipWorks
    ensures d.SinglePage? <==> !zipWorks && pageWorks
    ensures d.Alert? <==> !zipWorks && !pageWorks
    ensures d.Zip? ==> Lookup(d.entries, PageName) == Some(Document.BuildSrcDoc(html, css, js))
    ensures d.SinglePage? ==>
      d.fileName == PageName && Some(d.content) == Lookup(ExportEntries(html, css, js), PageName)
  {
    if zipWorks then Zip(ArchiveName, ExportEntries(html, css, js))
    else if pageWorks then SinglePage(PageName, Document.BuildSrcDoc(html, css, js))
    else Alert(FailureMessage)
  }

  /** Looked up by name, the archive holds the combined page, the three
      sources verbatim, the viewer and the README. */
  lemma ExportEntriesContents(html: string, css: string, js: string)
    ensures var es := ExportEntries(html, css, js);
      && Lookup(es, "preview.html") == Some(Document.BuildSrcDoc(html, css, js))
      && Lookup(es, "code.html") == Some(html)
      && Lookup(es, "code.css") == Some(css)
      && Lookup(es, "code.js") == Some(js)
      && Lookup(es, "index.html") == Some(IndexViewer)
      && Lookup(es, "README.txt") == Some(Readme)
  {
    var es := ExportEntries(html, css, js);
    LookupFinds(es, 0);
    LookupFinds(es, 1);
    LookupFinds(es, 2);
    LookupFinds(es, 3);
    LookupFinds(es, 4);
    LookupFinds(es, 5);
  }
}
