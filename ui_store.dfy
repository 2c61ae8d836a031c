/** The theme and sidebar store (stores/theme-store.ts) and the one side
    effect it has: the "dark" class on the document's root element. */
module UiStore {
  import opened Wrappers

  datatype Theme = Light | Dark

  /** `classList.toggle(name, force)`: `name` present exactly when `force`,
      every other class as it was. */
  function ToggleClass(classes: set<string>, name: string, force: bool): (r: set<string>)
    ensures name in r <==> force
    ensures forall c :: c != name ==> (c in r <==> c in classes)
  {
    if force then classes + {name} else classes - {name}
  }

  /** Forcing a class is idempotent, and a later force overrides an earlier. */
  lemma ToggleClassSettles(classes: set<string>, name: string, force: bool, again: bool)
    ensures ToggleClass(ToggleClass(classes, name, force), name, force) == ToggleClass(classes, name, force)
    ensures ToggleClass(ToggleClass(classes, name, force), name, again) == ToggleClass(classes, name, again)
  {
  }

  /** `document.documentElement` and its class list. */
  class DocumentRoot {
    var classes: set<string>

    constructor (classes: set<string>)
      ensures this.classes == classes
    {
      this.classes := classes;
    }
  }

  /** The state persisted under the store's storage key. */
  datatype Persisted = Persisted(theme: Theme, sidebarOpen: bool)

  class UIStore {
    var theme: Theme
    var sidebarOpen: bool
    /** The document, or `null` where `typeof document` is "undefined". */
    const document: DocumentRoot?

    constructor (document: DocumentRoot?)
      ensures theme == Light && sidebarOpen
      ensures this.document == document
    {
      theme := Light;
      sidebarOpen := true;
      this.document := document;
    }

    /** The "dark" class follows the theme (when there is a document). */
    predicate DarkClassFollowsTheme()
      reads this, document
    {
      document != null ==> ("dark" in document.classes <==> theme == Dark)
    }

    /** `setTheme(theme)` */
    method SetTheme(t: Theme)
      modifies this, document
      ensures theme == t && sidebarOpen == old(sidebarOpen)
      ensures document != null ==> document.classes == ToggleClass(old(document.classes), "dark", t == Dark)
      ensures DarkClassFollowsTheme()
    {
      theme := t;
      if document != null {
        document.classes := ToggleClass(document.classes, "dark", t == Dark);
      }
    }

    /** `toggleSidebar()` */
    method ToggleSidebar()
      modifies this
      ensures sidebarOpen == !old(sidebarOpen) && theme == old(theme)
    {
      sidebarOpen := !sidebarOpen;
    }

    /** `setSidebarOpen(open)` */
    method SetSidebarOpen(open: bool)
      modifies this
      ensures sidebarOpen == open && theme == old(theme)
    {
      sidebarOpen := open;
    }

    /** Rehydration: the storage layer hands the store's hook the merged
        state, and the hook applies the class. Empty storage still yields a
        state, the current fields (`Some` of them); `None` is the case where
        reading the storage failed and the hook receives no state. */
    method Rehydrate(restored: Option<Persisted>)
      modifies this, document
      ensures restored.Some? ==> theme == restored.value.theme && sidebarOpen == restored.value.sidebarOpen
      ensures restored.None? ==> theme == old(theme) && sidebarOpen == old(sidebarOpen)
      ensures restored.Some? && document != null ==>
        document.classes == ToggleClass(old(document.classes), "dark", restored.value.theme == Dark)
      ensures restored.None? && document != null ==> document.classes == old(document.classes)
      ensures restored.Some? ==> DarkClassFollowsTheme()
    {
      if restored.Some? {
        theme := restored.value.theme;
        sidebarOpen := restored.value.sidebarOpen;
        if document != null {
          document.classes := ToggleClass(document.classes, "dark", theme == Dark);
        }
      }
    }
  }

  /** Two toggles restore the sidebar; setting it twice is setting it once. */
  method ToggleTwice(ui: UIStore)
    modifies ui
    ensures ui.sidebarOpen == old(ui.sidebarOpen) && ui.theme == old(ui.theme)
  {
    ui.ToggleSidebar();
    ui.ToggleSidebar();
  }

  method SetSidebarTwice(ui: UIStore, open: bool)
    modifies ui
    ensures ui.sidebarOpen == open && ui.theme == old(ui.theme)
  {
    ui.SetSidebarOpen(open);
    ui.SetSidebarOpen(open);
  }
}
