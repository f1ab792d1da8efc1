/** The document body, shared by every component that locks page scrolling. */
module Page {

  /** `document.body`: the only state of it the components touch is `style.overflow`, which is
      either 'hidden' (scroll locked) or '' (unlocked). */
  class Body {
    var scrollLocked: bool

    constructor ()
      ensures !scrollLocked
    {
      scrollLocked := false;
    }
  }
}
