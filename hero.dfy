/** The hero section's navigation: three controls scroll to a section. */
module Hero {
  import opened Wrappers
  import opened Geometry

  /** Hero's `handleNavClick`: the `scrollTo` destination it emits, or none
      when the selector finds no element. The destination is
      `top + pageYOffset - HeaderOffset`, the offset that would leave the
      element's top edge exactly `HeaderOffset` pixels below the top of the
      viewport, if the page can scroll that far. */
  function HandleNavClick(href: string, vp: Viewport): (destination: Option<int>)
    ensures destination.Some? <==> href in vp.rectTop
    ensures destination.Some? ==> TopAfterScroll(vp, href, destination.value) == HeaderOffset
  {
    if href in vp.rectTop then
      var elementPosition := vp.rectTop[href];
      Some(elementPosition + vp.pageYOffset - HeaderOffset)
    else None
  }

  /** Only one destination would land the element under the header. */
  lemma DestinationIsUnique(href: string, vp: Viewport, d: int)
    requires href in vp.rectTop && TopAfterScroll(vp, href, d) == HeaderOffset
    ensures HandleNavClick(href, vp) == Some(d)
  {
  }

  /** Scrolling does not move an element within the document: whatever
      offset `y` the window ends up at (the destination itself, or wherever
      the browser clamped the scroll to), every rectangle top shifts by
      `pageYOffset - y`, and clicking again emits the same destination. */
  lemma ClickingAgainStays(href: string, vp: Viewport, y: int)
    ensures var moved := Viewport(y, map s | s in vp.rectTop :: vp.rectTop[s] + vp.pageYOffset - y);
            HandleNavClick(href, moved) == HandleNavClick(href, vp)
  {
  }

  datatype Control = ProjectsButton | ContactButton | ScrollIndicator

  /** The selector each control passes to `handleNavClick`. */
  function Target(c: Control): (href: string)
    ensures href in {"#projects", "#contact", "#about"}
  {
    match c
    case ProjectsButton => "#projects"
    case ContactButton => "#contact"
    case ScrollIndicator => "#about"
  }

  /** The "projects" button targets `#projects`, the "contact" button
      `#contact` and the scroll indicator `#about`. */
  lemma ControlTargets()
    ensures Target(ProjectsButton) == "#projects"
    ensures Target(ContactButton) == "#contact"
    ensures Target(ScrollIndicator) == "#about"
  {
  }

  /** A click on control `c`. */
  function ClickControl(c: Control, vp: Viewport): (destination: Option<int>)
    ensures destination.Some? <==> Target(c) in vp.rectTop
    ensures destination.Some? ==> TopAfterScroll(vp, Target(c), destination.value) == HeaderOffset
  {
    HandleNavClick(Target(c), vp)
  }
}
