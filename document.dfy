/** `buildSrcDoc`: the standalone page shown in the preview frame and
    exported as preview.html. The user's CSS, HTML and JS are pasted in
    verbatim, in that order, after a reset style that makes the page
    background transparent; the JS runs inside a try/catch that reports a
    thrown error to the console instead of stopping the page. */
module Document {

  const DocHead: string := "<!doctype html><html><head><meta charset=\"utf-8\">"
  const ResetStyle: string := "<style>html,body{background:transparent;margin:0;padding:0;}</style>"
  const StyleOpen: string := "<style>"
  const StyleClose: string := "</style>"
  const HeadClose: string := "</head><body>"
  const ScriptOpen: string := "<script>\ntry{"
  const ScriptClose: string := "\n}catch(e){console.error(e)}\n</script>"
  const DocTail: string := "</body></html>"

  /** Where the user's CSS begins: after the head, the reset style and `<style>`. */
  const CssAt: nat := |DocHead| + |ResetStyle| + |StyleOpen|

  /** Where the user's HTML begins, for CSS of length `nc`. */
  function HtmlAt(nc: nat): nat
  {
    CssAt + nc + |StyleClose| + |HeadClose|
  }

  /** Where the user's JS begins, for CSS and HTML of lengths `nc` and `nh`. */
  function JsAt(nc: nat, nh: nat): nat
  {
    HtmlAt(nc) + nh + |ScriptOpen|
  }

  /** Characters the template adds around the three inputs. */
  const Overhead: nat := JsAt(0, 0) + |ScriptClose| + |DocTail|

  /** The page adds a fixed number of characters around the three inputs. */
  function BuildSrcDoc(html: string, css: string, js: string): (doc: string)
    ensures |doc| == Overhead + |html| + |css| + |js|
  {
    var cssPart := ResetStyle + StyleOpen + css + StyleClose;
    var jsPart := ScriptOpen + js + ScriptClose;
    DocHead + cssPart + HeadClose + html + jsPart + DocTail
  }

  /** Reads the three inputs back out of a built page, given their lengths. */
  function Fragments(doc: string, nh: nat, nc: nat, nj: nat): (r: (string, string, string))
    requires |doc| == Overhead + nh + nc + nj
  {
    (doc[HtmlAt(nc)..HtmlAt(nc) + nh], doc[CssAt..CssAt + nc], doc[JsAt(nc, nh)..JsAt(nc, nh) + nj])
  }

  // The template with its constants left abstract, one part at a time.

  lemma TemplateReset(a: string, r: string, so: string, c: string, sc: string, hc: string, h: string, jo: string, j: string, jc: string, t: string)
    ensures (a + (r + so + c + sc) + hc + h + (jo + j + jc) + t)[..|a| + |r|] == a + r
  {
    var doc := a + (r + so + c + sc) + hc + h + (jo + j + jc) + t;
    forall k | 0 <= k < |a| + |r| ensures doc[k] == (a + r)[k] {}
  }

  lemma TemplateCss(a: string, r: string, so: string, c: string, sc: string, hc: string, h: string, jo: string, j: string, jc: string, t: string)
    ensures var ca := |a| + |r| + |so|;
      (a + (r + so + c + sc) + hc + h + (jo + j + jc) + t)[ca..ca + |c|] == c
  {
    var doc := a + (r + so + c + sc) + hc + h + (jo + j + jc) + t;
    var ca := |a| + |r| + |so|;
    forall k | 0 <= k < |c| ensures doc[ca + k] == c[k] {}
  }

  lemma TemplateHeadClose(a: string, r: string, so: string, c: string, sc: string, hc: string, h: string, jo: string, j: string, jc: string, t: string)
    ensures var ce := |a| + |r| + |so| + |c|;
      (a + (r + so + c + sc) + hc + h + (jo + j + jc) + t)[ce..ce + |sc| + |hc|] == sc + hc
  {
    var doc := a + (r + so + c + sc) + hc + h + (jo + j + jc) + t;
    var ce := |a| + |r| + |so| + |c|;
    forall k | 0 <= k < |sc| + |hc| ensures doc[ce + k] == (sc + hc)[k] {}
  }

  lemma TemplateHtml(a: string, r: string, so: string, c: string, sc: string, hc: string, h: string, jo: string, j: string, jc: string, t: string)
    ensures var ha := |a| + |r| + |so| + |c| + |sc| + |hc|;
      (a + (r + so + c + sc) + hc + h + (jo + j + jc) + t)[ha..ha + |h|] == h
  {
    var doc := a + (r + so + c + sc) + hc + h + (jo + j + jc) + t;
    var ha := |a| + |r| + |so| + |c| + |sc| + |hc|;
    forall k | 0 <= k < |h| ensures doc[ha + k] == h[k] {}
  }

  lemma TemplateScriptOpen(a: string, r: string, so: string, c: string, sc: string, hc: string, h: string, jo: string, j: string, jc: string, t: string)
    ensures var ea := |a| + |r| + |so| + |c| + |sc| + |hc| + |h|;
      (a + (r + so + c + sc) + hc + h + (jo + j + jc) + t)[ea..ea + |jo|] == jo
  {
    var doc := a + (r + so + c + sc) + hc + h + (jo + j + jc) + t;
    var ea := |a| + |r| + |so| + |c| + |sc| + |hc| + |h|;
    forall k | 0 <= k < |jo| ensures doc[ea + k] == jo[k] {}
  }

  lemma TemplateJs(a: string, r: string, so: string, c: string, sc: string, hc: string, h: string, jo: string, j: string, jc: string, t: string)
    ensures var ja := |a| + |r| + |so| + |c| + |sc| + |hc| + |h| + |jo|;
      (a + (r + so + c + sc) + hc + h + (jo + j + jc) + t)[ja..ja + |j|] == j
  {
    var doc := a + (r + so + c + sc) + hc + h + (jo + j + jc) + t;
    var ja := |a| + |r| + |so| + |c| + |sc| + |hc| + |h| + |jo|;
    forall k | 0 <= k < |j| ensures doc[ja + k] == j[k] {}
  }

  lemma TemplateTail(a: string, r: string, so: string, c: string, sc: string, hc: string, h: string, jo: string, j: string, jc: string, t: string)
    ensures var ja := |a| + |r| + |so| + |c| + |sc| + |hc| + |h| + |jo|;
      (a + (r + so + c + sc) + hc + h + (jo + j + jc) + t)[ja + |j|..] == jc + t
  {
    var doc := a + (r + so + c + sc) + hc + h + (jo + j + jc) + t;
    var ja := |a| + |r| + |so| + |c| + |sc| + |hc| + |h| + |jo|;
    forall k | 0 <= k < |jc| + |t| ensures doc[ja + |j| + k] == (jc + t)[k] {}
  }

  /** The page opens with the doctype, the head and the reset style. */
  lemma SrcDocStart(html: string, css: string, js: string)
    ensures var doc := BuildSrcDoc(html, css, js);
      doc[..|DocHead| + |ResetStyle|] == DocHead + ResetStyle
  {
    assert BuildSrcDoc(html, css, js)
      == DocHead + (ResetStyle + StyleOpen + css + StyleClose) + HeadClose + html + (ScriptOpen + js + ScriptClose) + DocTail;
    TemplateReset(DocHead, ResetStyle, StyleOpen, css, StyleClose, HeadClose, html, ScriptOpen, js, ScriptClose, DocTail);
  }

  /** The user's CSS appears verbatim inside `<style>`, after the reset style. */
  lemma CssVerbatim(html: string, css: string, js: string)
    ensures BuildSrcDoc(html, css, js)[CssAt..CssAt + |css|] == css
  {
    assert BuildSrcDoc(html, css, js)
      == DocHead + (ResetStyle + StyleOpen + css + StyleClose) + HeadClose + html + (ScriptOpen + js + ScriptClose) + DocTail;
    TemplateCss(DocHead, ResetStyle, StyleOpen, css, StyleClose, HeadClose, html, ScriptOpen, js, ScriptClose, DocTail);
  }

  /** The CSS is followed by `</style></head><body>`, which ends where the
      user's HTML begins. */
  lemma HeadClosesAfterCss(html: string, css: string, js: string)
    ensures CssAt + |css| < HtmlAt(|css|)
    ensures BuildSrcDoc(html, css, js)[CssAt + |css|..HtmlAt(|css|)] == StyleClose + HeadClose
  {
    assert BuildSrcDoc(html, css, js)
      == DocHead + (ResetStyle + StyleOpen + css + StyleClose) + HeadClose + html + (ScriptOpen + js + ScriptClose) + DocTail;
    TemplateHeadClose(DocHead, ResetStyle, StyleOpen, css, StyleClose, HeadClose, html, ScriptOpen, js, ScriptClose, DocTail);
  }

  /** The user's HTML appears verbatim right after the head, once the CSS
      has ended. */
  lemma HtmlVerbatim(html: string, css: string, js: string)
    ensures CssAt + |css| < HtmlAt(|css|)
    ensures BuildSrcDoc(html, css, js)[HtmlAt(|css|)..HtmlAt(|css|) + |html|] == html
  {
    assert BuildSrcDoc(html, css, js)
      == DocHead + (ResetStyle + StyleOpen + css + StyleClose) + HeadClose + html + (ScriptOpen + js + ScriptClose) + DocTail;
    TemplateHtml(DocHead, ResetStyle, StyleOpen, css, StyleClose, HeadClose, html, ScriptOpen, js, ScriptClose, DocTail);
  }

  /** Right after the HTML, the script opens with `try{`, which ends where
      the user's JS begins. */
  lemma ScriptOpensTry(html: string, css: string, js: string)
    ensures var doc := BuildSrcDoc(html, css, js);
      var ea := HtmlAt(|css|) + |html|;
      ea + |ScriptOpen| == JsAt(|css|, |html|) && doc[ea..ea + |ScriptOpen|] == ScriptOpen
  {
    assert BuildSrcDoc(html, css, js)
      == DocHead + (ResetStyle + StyleOpen + css + StyleClose) + HeadClose + html + (ScriptOpen + js + ScriptClose) + DocTail;
    assert HtmlAt(|css|) == |DocHead| + |ResetStyle| + |StyleOpen| + |css| + |StyleClose| + |HeadClose|;
    TemplateScriptOpen(DocHead, ResetStyle, StyleOpen, css, StyleClose, HeadClose, html, ScriptOpen, js, ScriptClose, DocTail);
  }

  /** The user's JS appears verbatim after the HTML, right after `try{` and
      right before the catch that logs to the console and the end of the page. */
  lemma JsWrapped(html: string, css: string, js: string)
    ensures HtmlAt(|css|) + |html| < JsAt(|css|, |html|)
    ensures var doc := BuildSrcDoc(html, css, js);
      var ja := JsAt(|css|, |html|);
      && doc[ja..ja + |js|] == js
      && doc[ja + |js|..] == ScriptClose + DocTail
  {
    assert BuildSrcDoc(html, css, js)
      == DocHead + (ResetStyle + StyleOpen + css + StyleClose) + HeadClose + html + (ScriptOpen + js + ScriptClose) + DocTail;
    assert JsAt(|css|, |html|) == |DocHead| + |ResetStyle| + |StyleOpen| + |css| + |StyleClose| + |HeadClose| + |html| + |ScriptOpen|;
    TemplateJs(DocHead, ResetStyle, StyleOpen, css, StyleClose, HeadClose, html, ScriptOpen, js, ScriptClose, DocTail);
    TemplateTail(DocHead, ResetStyle, StyleOpen, css, StyleClose, HeadClose, html, ScriptOpen, js, ScriptClose, DocTail);
  }

  /** Each input can be read back from the page: building is injective once
      the lengths of the inputs are known. */
  lemma FragmentsOfSrcDoc(html: string, css: string, js: string)
    ensures var doc := BuildSrcDoc(html, css, js);
      |doc| == Overhead + |html| + |css| + |js| &&
      Fragments(doc, |html|, |css|, |js|) == (html, css, js)
  {
    SrcDocStart(html, css, js);
    CssVerbatim(html, css, js);
    HtmlVerbatim(html, css, js);
    JsWrapped(html, css, js);
  }
}
