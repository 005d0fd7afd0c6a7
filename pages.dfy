/** Vocabulary shared by the page scripts: the optional value returned by a
    DOM or storage read, and the five pages whose scripts repeat the same
    behaviours with small variations. */
module Pages {

  /** A value that may be missing, as `null` from `localStorage.getItem` or
      `getAttribute`. */
  datatype Option<+T> = None | Some(value: T)

  /** The class name that shows an element: the open showcase, the preview
      container and the active preview image, the success message. */
  const Active := "active"

  /** The five pages of the site; each has its own copy of the script. */
  datatype Page = About | Index | Contact | Projects | Resume

  /** about, index and contact write the default theme back to storage when
      the slot is empty; projects and resume only fall back to it. */
  predicate PersistsDefaultTheme(p: Page)
  {
    p == About || p == Index || p == Contact
  }

  /** about and index keep the toggle button's aria-label in step with the
      theme; the other pages only change its glyph. */
  predicate SetsAriaLabel(p: Page)
  {
    p == About || p == Index
  }

  /** The index page registers its pointer listeners even when the page has
      no cursor element (and guards each style write instead); the other
      pages register them only when the element exists. */
  predicate TracksPointerWithoutCursor(p: Page)
  {
    p == Index
  }
}
