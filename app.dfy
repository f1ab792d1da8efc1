/** `PortfolioApp` (script.js): the components share one document body, so their keyboard
    handlers and scroll locks interact. */
module App {
  import opened Navigation
  import opened BlogManager
  import opened BlogFeed

  /** The two Escape listeners: the application's closes the mobile menu, and the blog's, once
      its listeners are attached, closes the modal. The page ends scrollable either way. */
  method PressEscape(nav: NavigationManager, blog: AdvancedDevToBlogManager)
    requires nav.body == blog.body
    modifies nav, blog, nav.body
    ensures nav.Valid() && !nav.menuActive && !nav.body.scrollLocked
    ensures nav.flags == old(nav.flags) && nav.lastScrollY == old(nav.lastScrollY)
    ensures old(blog.listening) ==> blog.ModalState() == Closed(old(blog.ModalState()))
    ensures !old(blog.listening) ==> blog.ModalState() == old(blog.ModalState())
    ensures blog.FeedState() == old(blog.FeedState())
  {
    nav.CloseMobileMenu();
    if blog.listening {
      blog.CloseModal();
    }
  }

  /** Because the lock is shared, closing the mobile menu while the preview is open unlocks
      the page behind the still-open modal. */
  method CloseMenuBehindModal(nav: NavigationManager, blog: AdvancedDevToBlogManager)
    requires nav.body == blog.body && blog.modalOpen
    modifies nav, nav.body
    ensures blog.modalOpen && !blog.body.scrollLocked
  {
    nav.CloseMobileMenu();
  }
}
