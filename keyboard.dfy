/** Keyboard navigation between page sections (`PortfolioApp.enhanceKeyboardNavigation` and
    `getCurrentSection`, script.js). */
module Keyboard {
  import opened JsBuiltins

  /** The section ids the arrow keys cycle through, top to bottom. */
  const Sections: seq<string> := ["home", "about", "projects", "contact"]

  datatype ArrowKey = ArrowDown | ArrowUp

  /** The index of the next section: ArrowDown moves down and wraps from the last to the first,
      ArrowUp moves up and wraps from the first, or from an unknown section (-1), to the last. */
  function NextIndex(key: ArrowKey, current: int): (r: int)
    requires -1 <= current < |Sections|
    ensures 0 <= r < |Sections|
    ensures key == ArrowDown ==> r == if current == |Sections| - 1 then 0 else current + 1
    ensures key == ArrowUp ==> r == if current <= 0 then |Sections| - 1 else current - 1
  {
    match key
    case ArrowDown => (current + 1) % |Sections|
    case ArrowUp => if current > 0 then current - 1 else |Sections| - 1
  }

  /** ArrowUp undoes ArrowDown and vice versa, from every known section. */
  lemma ArrowKeysInverse(i: int)
    requires 0 <= i < |Sections|
    ensures NextIndex(ArrowUp, NextIndex(ArrowDown, i)) == i
    ensures NextIndex(ArrowDown, NextIndex(ArrowUp, i)) == i
  {
  }

  /** The id of the section an arrow key leads to from the section `current`. */
  function NextSection(key: ArrowKey, current: string): (id: string)
    ensures id in Sections
  {
    Sections[NextIndex(key, IndexOf(Sections, current))]
  }

  /** At start-up the hero section 'home' is renamed 'main', which is not in the list: from it,
      ArrowUp leads to 'contact' and ArrowDown to 'home', an id no element carries any more. */
  lemma RenamedHeroSection()
    ensures NextSection(ArrowUp, "main") == "contact"
    ensures NextSection(ArrowDown, "main") == "home"
  {
    assert "main" !in Sections;
  }

  /** A `section[id]` element: its id and its `offsetTop` in pixels. */
  datatype SectionBox = SectionBox(id: string, offsetTop: int)

  /** `getCurrentSection`: the last section (in document order) that starts at or above
      `scrollY + 100`, or 'home' when there is none. */
  method GetCurrentSection(sections: seq<SectionBox>, scrollY: int) returns (id: string)
    ensures (forall k | 0 <= k < |sections| :: sections[k].offsetTop > scrollY + 100) ==> id == "home"
    ensures (exists k | 0 <= k < |sections| :: sections[k].offsetTop <= scrollY + 100) ==>
              exists k | 0 <= k < |sections| ::
                && id == sections[k].id
                && sections[k].offsetTop <= scrollY + 100
                && forall j | k < j < |sections| :: sections[j].offsetTop > scrollY + 100
  {
    var scrollPosition := scrollY + 100;
    var i := |sections| - 1;
    while i >= 0
      invariant -1 <= i < |sections|
      invariant forall j | i < j < |sections| :: sections[j].offsetTop > scrollPosition
    {
      if sections[i].offsetTop <= scrollPosition {
        return sections[i].id;
      }
      i := i - 1;
    }
    return "home";
  }
}
