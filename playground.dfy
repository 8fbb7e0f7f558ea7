/** The page itself: three editors, the auto-run box, the layout classes on
    the body, the local-storage slot and the document last given to the
    preview frame. Its methods are the handlers that change this state. */
module Playground {
  import opened Wrappers
  import opened Persistence
  import opened Indentation
  import Document

  class Page {
    const html: Textarea
    const css: Textarea
    const js: Textarea
    /** The auto-run checkbox. */
    var autorun: bool
    /** The classes on the document body. */
    var bodyClasses: set<string>
    /** The parsed value under the storage key. */
    var storage: Option<Record>
    /** The document last assigned to the preview frame. */
    var preview: string

    ghost predicate Valid()
      reads html, css, js
    {
      html != css && css != js && html != js &&
      html.Valid() && css.Valid() && js.Valid()
    }

    /** The state that `save` writes. */
    ghost function Current(): Snapshot
      reads this, html, css, js
    {
      Snapshot(html.value, css.value, js.value, autorun, LayoutOf(bodyClasses))
    }

    /** The page before its script runs: empty editors, and whatever classes
        the markup puts on the body. */
    constructor (stored: Option<Record>, autorunChecked: bool, classes: set<string>)
      ensures Valid() && fresh(html) && fresh(css) && fresh(js)
      ensures Current() == Snapshot("", "", "", autorunChecked, LayoutOf(classes))
      ensures bodyClasses == classes && storage == stored && preview == ""
    {
      html := new Textarea("");
      css := new Textarea("");
      js := new Textarea("");
      autorun := autorunChecked;
      bodyClasses := classes;
      storage := stored;
      preview := "";
    }

    /** `load`: fills the editors from storage, or with the starter content. */
    method Load()
      requires Valid()
      modifies html, css, js, this`autorun, this`bodyClasses
      ensures Valid()
      ensures var s := Restore(storage, old(autorun));
        && html.value == s.html && css.value == s.css && js.value == s.js
        && autorun == s.autorun
        && bodyClasses == old(bodyClasses) + {ClassName(s.layout)}
      ensures StackedClass !in old(bodyClasses) ==> Current() == Restore(storage, old(autorun))
    {
      match storage
      case None =>
        html.SetValue(DefaultHtml);
        css.SetValue(DefaultCss);
        js.SetValue(DefaultJs);
        bodyClasses := bodyClasses + {SideBySideClass};
      case Some(data) =>
        html.SetValue(data.html.GetOr(DefaultHtml));
        css.SetValue(data.css.GetOr(DefaultCss));
        js.SetValue(data.js.GetOr(DefaultJs));
        autorun := data.autorun.GetOr(false);
        if data.layout == Some(StackedClass) {
          bodyClasses := bodyClasses + {StackedClass};
        } else {
          bodyClasses := bodyClasses + {SideBySideClass};
        }
    }

    /** `save`: overwrites the storage slot with the current state. */
    method Save()
      modifies this`storage
      ensures storage == Some(Payload(Current()))
    {
      storage := Some(Payload(Snapshot(html.value, css.value, js.value, autorun,
        if StackedClass in bodyClasses then Stacked else SideBySide)));
    }

    /** `run`: gives the built page to the preview frame, then saves. */
    method Run()
      modifies this`preview, this`storage
      ensures preview == Document.BuildSrcDoc(html.value, css.value, js.value)
      ensures storage == Some(Payload(Current()))
    {
      preview := Document.BuildSrcDoc(html.value, css.value, js.value);
      Save();
    }

    /** Start-up: `load` and then `run`. */
    method Start()
      requires Valid()
      modifies html, css, js, this`autorun, this`bodyClasses, this`preview, this`storage
      ensures Valid()
      ensures StackedClass !in old(bodyClasses) ==> Current() == Restore(old(storage), old(autorun))
      ensures preview == Document.BuildSrcDoc(html.value, css.value, js.value)
      ensures storage == Some(Payload(Current()))
    {
      Load();
      Run();
    }

    /** The layout button: swaps the layout class on the body and saves. */
    method ToggleLayout()
      modifies this`bodyClasses, this`storage
      ensures bodyClasses == ToggledClasses(old(bodyClasses))
      ensures Current().layout != old(Current().layout)
      ensures storage == Some(Payload(Current()))
    {
      ToggleSwapsLayout(bodyClasses);
      if StackedClass in bodyClasses {
        bodyClasses := bodyClasses - {StackedClass};
        bodyClasses := bodyClasses + {SideBySideClass};
      } else {
        bodyClasses := bodyClasses - {SideBySideClass};
        bodyClasses := bodyClasses + {StackedClass};
      }
      Save();
    }

    /** A change of the auto-run checkbox is saved at once. */
    method SetAutorun(checked: bool)
      modifies this`autorun, this`storage
      ensures autorun == checked
      ensures storage == Some(Payload(Current()))
    {
      autorun := checked;
      Save();
    }

    /** A Tab keydown in one of the editors: `handleTabKey`, then save, then
        run if auto-run is on. Other keys change nothing. */
    method OnTabKey(editor: Textarea, key: string, shift: bool) returns (handled: bool)
      requires Valid()
      requires editor == html || editor == css || editor == js
      modifies editor, this`storage, this`preview
      ensures Valid()
      ensures handled == (key == "Tab")
      ensures editor.State() == if !handled then old(editor.State())
                                else if shift then UnindentKey(old(editor.State()))
                                else IndentKey(old(editor.State()))
      ensures storage == if handled then Some(Payload(Current())) else old(storage)
      ensures preview == if handled && autorun then Document.BuildSrcDoc(html.value, css.value, js.value)
                         else old(preview)
    {
      ghost var before := editor.State();
      handled := editor.HandleTabKey(key, shift);
      assert editor.State() == if !handled then before
                               else if shift then UnindentKey(before)
                               else IndentKey(before);
      assert Valid();
      if handled {
        Save();
        if autorun {
          Run();
        }
      }
    }
  }

  /** Opening the page again in the same browser: a new page over the same
      storage slot runs its start-up. Unless the markup already puts
      `stacked` on the body, whatever the old page last saved is what the
      new page shows. */
  method Reopen(last: Page, autorunChecked: bool, classes: set<string>) returns (page: Page)
    requires last.Valid()
    ensures page.Valid() && fresh(page)
    ensures StackedClass !in classes ==> page.Current() == Restore(last.storage, autorunChecked)
    ensures StackedClass !in classes && last.storage == Some(Payload(last.Current())) ==>
      page.Current() == last.Current()
  {
    page := new Page(last.storage, autorunChecked, classes);
    page.Start();
    if last.storage == Some(Payload(last.Current())) {
      SaveLoadRoundTrip(last.Current(), autorunChecked);
    }
  }
}
