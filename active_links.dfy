/** Highlighting the current navigation link: `SmoothScroll.updateActiveNavLink` and
    `ScrollAnimations.updateActiveNavigation` (script.js). */
module ActiveLinks {

  /** A `.nav-link` element: its `href` attribute and whether it carries the 'active' class. */
  class NavLink {
    const href: string
    var active: bool

    constructor (href: string, active: bool)
      ensures this.href == href && this.active == active
    {
      this.href := href;
      this.active := active;
    }
  }

  /** The set of link objects in `links`. */
  ghost function Objects(links: seq<NavLink>): set<NavLink> {
    set k | 0 <= k < |links| :: links[k]
  }

  /** `updateActiveNavLink`: afterwards exactly the links whose href equals `activeHref` are active. */
  method UpdateActiveNavLink(links: seq<NavLink>, activeHref: string)
    modifies Objects(links)
    ensures forall k | 0 <= k < |links| :: links[k].active <==> links[k].href == activeHref
  {
    var i := 0;
    while i < |links|
      invariant 0 <= i <= |links|
      invariant forall k | 0 <= k < i :: links[k].active <==> links[k].href == activeHref
    {
      links[i].active := false;
      if links[i].href == activeHref {
        links[i].active := true;
      }
      i := i + 1;
    }
  }

  /** `updateActiveNavigation`: the section with id `sectionId` is linked as `#sectionId`. */
  method UpdateActiveNavigation(links: seq<NavLink>, sectionId: string)
    modifies Objects(links)
    ensures forall k | 0 <= k < |links| :: links[k].active <==> links[k].href == "#" + sectionId
  {
    UpdateActiveNavLink(links, "#" + sectionId);
  }
}
