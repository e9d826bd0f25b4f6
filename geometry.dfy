/** What the navigation handlers see of the page layout, abstracted to
    integers: the viewport's vertical scroll offset and, for each selector
    that `document.querySelector` finds, the top of that element's bounding
    rectangle relative to the viewport. */
module Geometry {

  datatype Viewport = Viewport(pageYOffset: int, rectTop: map<string, int>)

  /** Height kept free for the fixed header when scrolling to a section. */
  const HeaderOffset: int := 80

  /** Where the element's top edge would sit in the viewport if the window
      scrolled exactly to `destination`: its place in the document is its
      rectangle top plus the current scroll offset. The browser clamps a
      scroll into the page's scroll range, so this is where the element
      lands only when `destination` lies within that range. */
  function TopAfterScroll(vp: Viewport, selector: string, destination: int): int
    requires selector in vp.rectTop
  {
    vp.rectTop[selector] + vp.pageYOffset - destination
  }
}
