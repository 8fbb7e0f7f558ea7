/** The saved editor state. The page keeps one JSON record under the key
    `mini-codepen-state-v1` in local storage; here the stored value is taken
    after parsing, as an optional record whose properties are optional. */
module Persistence {
  import opened Wrappers

  /** The starter content. */
  const DefaultHtml: string := "<h1>Hello World</h1>\n<p>Edit the code and press Run or enable Auto-run.</p>"
  const DefaultCss: string := "body{font-family:system-ui,Segoe UI,Roboto,Arial;margin:16px;color:#0b1220}\nh1{color:#4f46e5}"
  const DefaultJs: string := "console.log('Hello from JS');"

  /** The page layout, shown by a class on the document body. */
  datatype Layout = Stacked | SideBySide

  const StackedClass: string := "stacked"
  const SideBySideClass: string := "side-by-side"

  function ClassName(l: Layout): (c: string)
    ensures c == StackedClass <==> l == Stacked
  {
    match l
    case Stacked => StackedClass
    case SideBySide => SideBySideClass
  }

  /** The layout a set of body classes shows: stacked exactly when the
      `stacked` class is present. With one layout class on the body, that
      class names the layout. */
  function LayoutOf(classes: set<string>): (l: Layout)
    ensures OneLayoutClass(classes) ==> ClassName(l) in classes
  {
    if StackedClass in classes then Stacked else SideBySide
  }

  /** The state of the editor that is saved and loaded. */
  datatype Snapshot = Snapshot(html: string, css: string, js: string, autorun: bool, layout: Layout)

  /** A parsed stored record. A property is `None` when it is missing or
      null; `autorun` stands for the truthiness of the stored value. */
  datatype Record = Record(
    html: Option<string>,
    css: Option<string>,
    js: Option<string>,
    autorun: Option<bool>,
    layout: Option<string>)

  /** What the page shows when nothing usable is stored. The auto-run box
      is not touched on that path, so it keeps its state. */
  function Defaults(autorunBefore: bool): Snapshot
  {
    Snapshot(DefaultHtml, DefaultCss, DefaultJs, autorunBefore, SideBySide)
  }

  /** `save`: the record written from the current state. Every property is
      present, and the layout is written as its body class. */
  function Payload(s: Snapshot): (r: Record)
    ensures r.html.Some? && r.css.Some? && r.js.Some? && r.autorun.Some? && r.layout.Some?
    ensures r.layout == Some(StackedClass) <==> s.layout == Stacked
  {
    Record(Some(s.html), Some(s.css), Some(s.js), Some(s.autorun), Some(ClassName(s.layout)))
  }

  /** `load`: coalesces a stored value into a snapshot. `None` stands for
      a missing or empty key and for content that fails to parse. */
  function Restore(stored: Option<Record>, autorunBefore: bool): (s: Snapshot)
    ensures stored.None? ==> s == Defaults(autorunBefore)
    ensures s.layout == Stacked <==> stored.Some? && stored.value.layout == Some(StackedClass)
  {
    match stored
    case None => Defaults(autorunBefore)
    case Some(data) =>
      Snapshot(
        data.html.GetOr(DefaultHtml),
        data.css.GetOr(DefaultCss),
        data.js.GetOr(DefaultJs),
        data.autorun.GetOr(false),
        if data.layout == Some(StackedClass) then Stacked else SideBySide)
  }

  /** A stored record falls back field by field: each missing text takes
      its own default and nothing else, a missing auto-run flag is off, and
      any layout other than `stacked` is side by side. */
  lemma RestoreFieldByField(data: Record, autorunBefore: bool)
    ensures var s := Restore(Some(data), autorunBefore);
      && (data.html.Some? ==> s.html == data.html.value)
      && (data.html.None? ==> s.html == DefaultHtml)
      && (data.css.Some? ==> s.css == data.css.value)
      && (data.css.None? ==> s.css == DefaultCss)
      && (data.js.Some? ==> s.js == data.js.value)
      && (data.js.None? ==> s.js == DefaultJs)
      && (s.autorun <==> data.autorun == Some(true))
      && (s.layout == SideBySide <==> data.layout != Some(StackedClass))
  {
  }

  /** Saving then loading gives back every field unchanged. */
  lemma SaveLoadRoundTrip(s: Snapshot, autorunBefore: bool)
    ensures Restore(Some(Payload(s)), autorunBefore) == s
  {
    match s.layout
    case Stacked =>
    case SideBySide => assert SideBySideClass != StackedClass;
  }

  /** Loading, saving and loading again gives the first load's result:
      once loaded, a state is a fixed point of save and load. */
  lemma LoadSaveLoad(stored: Option<Record>, autorunBefore: bool, autorunLater: bool)
    ensures var s := Restore(stored, autorunBefore);
      Restore(Some(Payload(s)), autorunLater) == s
  {
    SaveLoadRoundTrip(Restore(stored, autorunBefore), autorunLater);
  }

  /** The layout button: swaps `stacked` and `side-by-side` on the body.
      Afterwards exactly one layout class is present, and no other class is
      added or removed. */
  function ToggledClasses(classes: set<string>): (t: set<string>)
    ensures OneLayoutClass(t)
    ensures t - {StackedClass, SideBySideClass} == classes - {StackedClass, SideBySideClass}
  {
    assert StackedClass != SideBySideClass;
    if StackedClass in classes then classes - {StackedClass} + {SideBySideClass}
    else classes - {SideBySideClass} + {StackedClass}
  }

  /** The body shows exactly one of the two layout classes. */
  predicate OneLayoutClass(classes: set<string>)
  {
    (StackedClass in classes) != (SideBySideClass in classes)
  }

  /** The toggle swaps the two layouts. */
  lemma ToggleSwapsLayout(classes: set<string>)
    ensures LayoutOf(classes) == Stacked <==> LayoutOf(ToggledClasses(classes)) == SideBySide
  {
    assert StackedClass != SideBySideClass;
  }

  /** Toggling twice restores the layout, and restores the classes too when
      the body showed one layout class to begin with. */
  lemma ToggleTwice(classes: set<string>)
    ensures LayoutOf(ToggledClasses(ToggledClasses(classes))) == LayoutOf(classes)
    ensures OneLayoutClass(classes) ==> ToggledClasses(ToggledClasses(classes)) == classes
  {
    assert StackedClass != SideBySideClass;
    ToggleSwapsLayout(classes);
    ToggleSwapsLayout(ToggledClasses(classes));
  }
}
