# Portfolio view state, modelled in Dafny

The portfolio site is a single page: a navigation bar, a hero section, a
project gallery with a detail modal, and a contact form. Almost all of it is
markup and animation. What this project models is the client-side view
state behind it:

- the contact form (`Contact`): four text fields, a per-field update, the
  "all fields non-empty" check, and the simulated send that goes
  idle → submitting → submitted → idle through two deferred steps of 2000 ms;
- the project table and the gallery filter (`ProjectData`, `Projects`): the
  six static projects, the four filter buttons and the order-preserving
  filter;
- the detail modal (`ProjectModal`): what it renders, which clicks and keys
  call `onClose`, and its two effects on the document, the scroll lock on
  `document.body.style.overflow` and the Escape keydown listener;
- the page root (`Portfolio`): `selectedProject` and the `isOpen`/`onClose`
  wiring, with every state change committing the modal again;
- the navigation (`Geometry`, `Hero`, `Navbar`): the scroll destination
  `top + pageYOffset - 80`, the `isScrolled` threshold and the mobile menu;
- the single-file variant of the page (`SinglePage`): the active-section
  tracker driven by the scroll listener, the dark-mode flag and
  `scrollToSection`.

A project's category is one of `webapp`, `website` and `mobile` by its
type, and a filter is one of the four button values by its type.

Stateful components are classes whose fields are the component's state and
whose methods are its event handlers; each method's `ensures` gives the whole
new state. The contact form's handlers are also specified as functions on a
`ContactState` value (`InputChanged`, `Submitted`, `Fired`, `Step`, `Run`), so
that lemmas can speak about whole event sequences.

Timers are not time. Every delay the form schedules becomes an entry of a
FIFO queue of pending timers, and a timer event delivers the oldest entry.
Both delays are 2000 ms, so timers fire in the order they were scheduled and
the queue is exact. `handleSubmit` checks that every field is filled but has
no guard against a submission already in flight. The form's submit
event reaches it only while the submit button is enabled, because the HTML
standard's implicit-submission rule does not submit a form whose default
button is disabled. That is what keeps `isSubmitting` and `isSubmitted` from
ever both being true (`Contact.RunKeepsConsistent`); `HandleSubmit` models
the handler as written and `SubmitForm` the event.

DOM geometry is abstracted to integers. The navigation handlers see a
`Viewport`: the page's `pageYOffset` and, per selector that
`document.querySelector` finds, the element's bounding-rectangle top. The
active-section tracker sees a map from the ids that `getElementById` finds
to `offsetTop` and `offsetHeight`. A `scrollTo` or `scrollIntoView` call is
modelled as the target it emits.

The scroll handler lets every qualifying section overwrite the previous
one, so the last qualifying section wins and no match keeps the old value
(`SinglePage.LastQualifyingWins`, `SinglePage.NoneQualifyingKeeps`); on a
page whose sections are stacked without gaps or overlaps the containing
section is the active one (`SinglePage.ContainingSectionIsActive`). The
tracker's threshold is 100 px, the navigation handlers' header offset 80 px.

## Model

| member | source | states |
|---|---|---|
| `Contact.WithField` | DevFolio/client/src/components/Contact.tsx:53-59 | the input change sets exactly the named field to the new value; the other three fields keep their values |
| `Contact.AllFilled` | DevFolio/client/src/components/Contact.tsx:64 | the submit guard holds iff every one of the four fields is non-empty; only emptiness is tested |
| `Contact.Initial` | DevFolio/client/src/components/Contact.tsx:40-47 | on mount all four fields are `''`, neither flag is set and nothing is pending |
| `Contact.InputChanged` | DevFolio/client/src/components/Contact.tsx:53-59 | an input change alters only the named field; flags and pending timers are untouched |
| `Contact.Submitted` | DevFolio/client/src/components/Contact.tsx:61-76 | an incomplete form raises the error notice and the state is unchanged; a complete one sets `isSubmitting`, keeps the fields and schedules the send delay |
| `Contact.Fired` | DevFolio/client/src/components/Contact.tsx:76-95 | after the send delay the form is submitted and not submitting, shows the confirmation and schedules the reset; after the reset delay all four fields are `''` and `isSubmitted` is false |
| `Contact.InitialIsConsistent` | DevFolio/client/src/components/Contact.tsx:40-47 | the mount state is in the idle phase |
| `Contact.StepKeepsConsistent` | DevFolio/client/src/components/Contact.tsx:53-95 | one input, submit or timer event keeps the form in one of its three phases |
| `Contact.RunKeepsConsistent` | DevFolio/client/src/components/Contact.tsx:73-95 | over any event sequence the form never is submitting and submitted at once, and the button is disabled exactly while a step is pending |
| `Contact.InputsOnlyTouchFields` | DevFolio/client/src/components/Contact.tsx:53-59 | any sequence of input changes leaves both flags and the pending timers as they were |
| `Contact.SubmitCycle` | DevFolio/client/src/components/Contact.tsx:61-95 | from idle with all fields filled: submit sets submitting and keeps the fields, the first timer makes it submitted, the second returns the form to its mount state whatever was typed in between |
| `Contact.RejectedSubmitChangesNothing` | DevFolio/client/src/components/Contact.tsx:64-71 | a submit with an empty field changes no state at all |
| `Contact.WhitespaceIsAccepted` | DevFolio/client/src/components/Contact.tsx:64 | four blank-only fields pass the guard |
| `Contact.ContactForm.constructor` | DevFolio/client/src/components/Contact.tsx:40-47 | the component mounts in the initial state |
| `Contact.ContactForm.SubmitDisabled` | DevFolio/client/src/components/Contact.tsx:247 | the submit button is disabled exactly when `isSubmitting` or `isSubmitted` |
| `Contact.ContactForm.HandleInputChange` | DevFolio/client/src/components/Contact.tsx:53-59 | the new state is the input change applied to the old one |
| `Contact.ContactForm.HandleSubmit` | DevFolio/client/src/components/Contact.tsx:61-73 | the new state and notice are those of the handler as written, which checks the fields but not whether a submission is in flight |
| `Contact.ContactForm.SubmitForm` | DevFolio/client/src/components/Contact.tsx:182 | the form's submit event does nothing while the button is disabled; otherwise its new state and notice are those of the handler (so an incomplete form raises the error notice and changes nothing), and it keeps the phase invariant |
| `Contact.ContactForm.TimerFired` | DevFolio/client/src/components/Contact.tsx:76-95 | the oldest pending timer runs its continuation |
| `ProjectData.TableIdsDistinct` | DevFolio/client/src/components/Portfolio.tsx:22-95 | the six project ids are pairwise distinct |
| `ProjectData.TableIds` | DevFolio/client/src/components/Portfolio.tsx:22-95 | the table holds `project1` … `project6` in that order |
| `Projects.Filtered` | DevFolio/client/src/components/Projects.tsx:101-103 | the result is a subsequence of the input (so order is kept and it is no longer), holds exactly the input projects the filter keeps, and equals the input for `'all'` |
| `Projects.CategoriesPartition` | DevFolio/client/src/components/Projects.tsx:101-103 | the `webapp`, `website` and `mobile` results together are the input, as a multiset and by length |
| `Projects.CategoriesDisjoint` | DevFolio/client/src/components/Projects.tsx:101-103 | no project appears in the results of two different categories |
| `Projects.FilterIdempotent` | DevFolio/client/src/components/Projects.tsx:101-103 | filtering a filtered list by the same filter changes nothing |
| `Projects.FilterButtonsCoverFilterType` | DevFolio/client/src/components/Projects.tsx:12-19 | there are four filter buttons and every filter value has one |
| `Projects.WebAppsOfTable` | DevFolio/client/src/components/Portfolio.tsx:22-95 | filtering the table by `webapp` yields project1, project2 and project6 in that order |
| `Projects.Gallery.constructor` | DevFolio/client/src/components/Projects.tsx:97 | the filter starts at `'all'` |
| `Projects.Gallery.ClickFilter` | DevFolio/client/src/components/Projects.tsx:138 | a filter button sets the active filter to its own value |
| `Projects.Gallery.Visible` | DevFolio/client/src/components/Projects.tsx:101-103 | the rendered cards are a subsequence of the projects and a project is shown iff the active filter keeps it |
| `ProjectModal.Render` | DevFolio/client/src/components/ProjectModal.tsx:47-51 | a null project renders nothing; the dialog is shown iff there is a project and the modal is open, and it shows that project |
| `ProjectModal.OnCloseCalls` | DevFolio/client/src/components/ProjectModal.tsx:41-45 | a click calls `onClose` once when it lands on the backdrop itself or on the close control, and never otherwise |
| `ProjectModal.PanelStopsPropagation` | DevFolio/client/src/components/ProjectModal.tsx:66 | handlers above the panel never see a click that bubbles through it |
| `ProjectModal.ModalHost.constructor` | DevFolio/client/src/components/ProjectModal.tsx:12 | before its first commit the modal holds no listener and has not touched the body |
| `ProjectModal.ModalHost.Commit` | DevFolio/client/src/components/ProjectModal.tsx:13-39 | after a commit the body overflow is `hidden` iff open and `auto` otherwise, and exactly the new commit's listener is registered iff open, so at most one |
| `ProjectModal.ModalHost.Unmount` | DevFolio/client/src/components/ProjectModal.tsx:20-22 | teardown sets the overflow back to `auto` and removes the listener |
| `ProjectModal.ModalHost.KeyDown` | DevFolio/client/src/components/ProjectModal.tsx:26-30 | a keydown calls `onClose` iff it is Escape and the mounted modal is open |
| `Portfolio.PortfolioRoot.IsOpen` | DevFolio/client/src/components/Portfolio.tsx:122 | the modal is open iff `selectedProject` is non-null |
| `Portfolio.PortfolioRoot.LockMatchesSelection` | DevFolio/client/src/components/Portfolio.tsx:120-124 | the body is locked iff a project is selected, and then exactly one Escape listener is registered |
| `Portfolio.PortfolioRoot.constructor` | DevFolio/client/src/components/Portfolio.tsx:98 | nothing is selected on mount, the filter is `'all'` and the body is not locked |
| `Portfolio.PortfolioRoot.ModalView` | DevFolio/client/src/components/Portfolio.tsx:120-124 | the dialog is shown iff a project is selected, and it shows the selected one |
| `Portfolio.PortfolioRoot.OnProjectSelect` | DevFolio/client/src/components/Portfolio.tsx:105 | selecting sets `selectedProject` to exactly the clicked project and locks the body |
| `Portfolio.PortfolioRoot.OnClose` | DevFolio/client/src/components/Portfolio.tsx:123 | closing clears the selection, unlocks the body and leaves no listener |
| `Portfolio.PortfolioRoot.KeyDown` | DevFolio/client/src/components/ProjectModal.tsx:25-39 | Escape while a project is selected clears it; any other key, or Escape while closed, changes nothing |
| `Portfolio.PortfolioRoot.Click` | DevFolio/client/src/components/ProjectModal.tsx:41-74 | a click on the backdrop or the close control clears the selection; a click elsewhere in the panel changes nothing |
| `Portfolio.PortfolioRoot.Teardown` | DevFolio/client/src/components/ProjectModal.tsx:20-22 | tearing the page down releases the scroll lock and removes the listener |
| `Hero.HandleNavClick` | DevFolio/client/src/components/Hero.tsx:5-17 | a destination is emitted iff the selector finds an element, and it is `top + pageYOffset - 80`, the offset that would put that element's top edge 80 px below the viewport top if the page can scroll that far |
| `Hero.DestinationIsUnique` | DevFolio/client/src/components/Hero.tsx:8-10 | the emitted destination is the only offset that would put the element 80 px below the viewport top |
| `Hero.ClickingAgainStays` | DevFolio/client/src/components/Hero.tsx:8-15 | wherever the window ends up after the scroll, the destination itself or a clamped offset, clicking again emits the same destination |
| `Hero.Target` | DevFolio/client/src/components/Hero.tsx:60-156 | every hero control targets one of the section anchors `#projects`, `#contact`, `#about` |
| `Hero.ControlTargets` | DevFolio/client/src/components/Hero.tsx:60-156 | the projects button targets `#projects`, the contact button `#contact` and the scroll indicator `#about` |
| `Hero.ClickControl` | DevFolio/client/src/components/Hero.tsx:60-156 | a control's click emits a destination iff its target element exists, and it is the offset that would put that element 80 px below the viewport top |
| `Navbar.NavItemsInOrder` | DevFolio/client/src/components/Navbar.tsx:6-11 | the nav items are `#home`, `#about`, `#projects`, `#contact`, in that order |
| `Navbar.NavbarState.constructor` | DevFolio/client/src/components/Navbar.tsx:15-16 | `isScrolled` and `isMobileMenuOpen` start false |
| `Navbar.NavbarState.HandleScroll` | DevFolio/client/src/components/Navbar.tsx:18-21 | after a scroll event `isScrolled` is `scrollY > 50`; the menu flag is untouched |
| `Navbar.NavbarState.ToggleMobileMenu` | DevFolio/client/src/components/Navbar.tsx:101 | the menu button negates `isMobileMenuOpen`, so two presses restore it |
| `Navbar.NavbarState.HandleNavClick` | DevFolio/client/src/components/Navbar.tsx:27-40 | the same destination rule as the hero's (the offset that would put the element 80 px below the viewport top), none for a missing element, and the mobile menu is closed in both cases |
| `SinglePage.ActiveAfter` | Portfolio.jsx:13-19 | the scan ends on the old value or on one of the scanned ids |
| `SinglePage.LastQualifyingWins` | Portfolio.jsx:13-19 | when several sections qualify, the last qualifying one in scan order becomes active |
| `SinglePage.NoneQualifyingKeeps` | Portfolio.jsx:13-21 | when no section qualifies, missing elements included, the active section keeps its value |
| `SinglePage.ScanIsIdempotent` | Portfolio.jsx:9-21 | handling the same scroll position over the same layout again changes nothing |
| `SinglePage.ContainingSectionIsActive` | Portfolio.jsx:17 | on a page of stacked sections, the section whose band `[offsetTop - 100, offsetTop + offsetHeight - 100)` holds the scroll position becomes active |
| `SinglePage.ScrollToSection` | Portfolio.jsx:28-33 | the section is scrolled into view iff its element exists, and its target is that element's box |
| `SinglePage.ScrolledIntoViewIsActive` | Portfolio.jsx:13-33 | on stacked sections, scrolling a section into view makes it the active one iff it is taller than the 100 px threshold |
| `SinglePage.Page.constructor` | Portfolio.jsx:5-6 | `darkMode` starts false and `activeSection` starts at `'hero'` |
| `SinglePage.Page.HandleScroll` | Portfolio.jsx:9-22 | the loop leaves `activeSection` at the fold of the six sections in order, so it stays one of the six ids |
| `SinglePage.Page.ToggleDarkMode` | Portfolio.jsx:94 | the theme button negates `darkMode`, so two presses restore it |

## Left out

- Markup, styling, icons, copy text and all framer-motion animation, including `useInView` and the skill-level animation in `About.tsx`: presentation only.
- Real time: the two 2000 ms delays are queue entries delivered by timer events, and the `await` is the first of them.
- The toast library and its rendering: a toast is modelled as the `Notice` a step returns.
- The browser's own constraint validation (`required` on all four inputs, `type="email"`), which can stop a submit before `handleSubmit` runs: it is browser behaviour, not the component's.
- A submission still in flight when the contact form unmounts: its timers would still fire against an unmounted component; the model has no unmount for the form.
- The theme provider behind the navbar's theme button (`useTheme`, `toggleTheme`): `ThemeProvider` is not part of this model; the dark-mode flag of the single-file page is modelled instead.
- Fractional scroll offsets and rectangle coordinates: all geometry is integers, and `scrollTo`, `scrollIntoView` and smooth scrolling are the target they are given.
- Geometry.TopAfterScroll: the browser clamps a scroll into `[0, maximum scroll]` and the model has no maximum scroll, so the position it gives is where the element lands only when the destination is reachable; `#home`, whose section starts the page, gets destination `-80`, the window stays at 0 and the section ends up 0 px below the viewport top.
- Hero.HandleNavClick: its 80 px placement assumes the destination is reachable, as for `Geometry.TopAfterScroll`.
- Hero.DestinationIsUnique: unique among offsets the window could be at if unclamped, as for `Geometry.TopAfterScroll`.
- Hero.ClickControl: its 80 px placement assumes the destination is reachable, as for `Geometry.TopAfterScroll`.
- Navbar.NavbarState.HandleNavClick: its 80 px placement assumes the destination is reachable, as for `Geometry.TopAfterScroll`.
- SinglePage.ScrolledIntoViewIsActive: assumes the page can scroll far enough to bring the section's top to the viewport top.
- Registering and removing the window scroll listeners of the navbar and the single-file page: only their handlers are modelled.
- `App.tsx`: provider wiring only.
- Input names other than the four fields: the handler writes whatever key the input's `name` attribute holds; the model admits only the four fields, which are the names the form's inputs carry.
