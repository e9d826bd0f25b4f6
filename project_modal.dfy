/** The project detail modal: what it renders, how clicks and keys reach
    `onClose`, and the two effects it runs against the document: the
    scroll lock on `document.body.style.overflow` and the Escape listener.
    The modal is generic in the project type it shows. */
module ProjectModal {
  import opened Wrappers

  /** `document.body.style.overflow`; `Unset` is its value before the modal
      first runs its effect. */
  datatype Overflow = Unset | Hidden | Auto

  /** One `handleKeyDown` closure: the commit that created it and the
      `isOpen` it captured. Two commits create two distinct closures, which
      is what `removeEventListener` compares. */
  datatype KeyListener = KeyListener(commit: nat, isOpen: bool)

  /** The body of `handleKeyDown`. */
  predicate CallsOnClose(l: KeyListener, key: string)
  {
    key == "Escape" && l.isOpen
  }

  /** What the component returns: nothing for a null project, an empty
      presence while closed, the dialog while open. */
  datatype View<P> = Nothing | Closed | Shown(project: P)

  function Render<P>(project: Option<P>, isOpen: bool): (v: View<P>)
    ensures v.Nothing? <==> project.None?
    ensures v.Shown? <==> project.Some? && isOpen
    ensures v.Shown? ==> v.project == project.value
  {
    if project.None? then Nothing
    else if isOpen then Shown(project.value)
    else Closed
  }

  /** The elements a click on the open modal can land on: the backdrop, the
      panel, the close button in the panel, and any other content of the
      panel. */
  datatype Element = Backdrop | Panel | CloseButton | PanelContent

  /** The elements a click on `target` bubbles through, target first. */
  function Path(target: Element): (path: seq<Element>)
    ensures path != [] && path[0] == target && path[|path| - 1] == Backdrop
    ensures target != Backdrop ==> Panel in path
  {
    match target
    case Backdrop => [Backdrop]
    case Panel => [Panel, Backdrop]
    case CloseButton => [CloseButton, Panel, Backdrop]
    case PanelContent => [PanelContent, Panel, Backdrop]
  }

  /** `handleBackdropClick`'s guard `e.target === e.currentTarget`, for the
      listener on the backdrop. */
  predicate BackdropHandlerCloses(target: Element)
  {
    target == Backdrop
  }

  /** The calls to `onClose` that a click on `target` makes while it bubbles
      through `path`: the close button calls it, the panel stops
      propagation, the backdrop calls it only for a click on itself. */
  function Bubble(target: Element, path: seq<Element>): nat
    decreases |path|
  {
    if path == [] then 0
    else match path[0]
      case CloseButton => 1 + Bubble(target, path[1..])
      case Panel => 0
      case Backdrop => (if BackdropHandlerCloses(target) then 1 else 0) + Bubble(target, path[1..])
      case PanelContent => Bubble(target, path[1..])
  }

  /** A click closes the modal exactly when it lands on the backdrop itself
      or on the close control; clicks elsewhere in the panel do nothing. */
  function OnCloseCalls(target: Element): (n: nat)
    ensures n == if target == Backdrop || target == CloseButton then 1 else 0
  {
    assert [Backdrop][1..] == [];
    assert Bubble(target, [Backdrop]) == if target == Backdrop then 1 else 0;
    assert Bubble(target, [Panel, Backdrop]) == 0;
    assert [CloseButton, Panel, Backdrop][1..] == [Panel, Backdrop];
    assert [PanelContent, Panel, Backdrop][1..] == [Panel, Backdrop];
    Bubble(target, Path(target))
  }

  /** A click anywhere below the panel is stopped there and never reaches the
      backdrop's handler. */
  lemma {:induction false} PanelStopsPropagation(target: Element, path: seq<Element>, k: nat)
    requires k < |path| && path[k] == Panel
    requires forall i :: 0 <= i < k ==> path[i] == CloseButton || path[i] == PanelContent
    ensures Bubble(target, path) == Bubble(target, path[..k])
    decreases k
  {
    if k > 0 {
      PanelStopsPropagation(target, path[1..], k - 1);
      assert path[1..][..k - 1] == path[..k][1..];
    } else {
      assert path[..k] == [];
    }
  }

  /** The document-side state of a mounted `ProjectModal`. */
  class ModalHost {
    var mounted: bool
    /** The `isOpen` prop of the latest commit. */
    var isOpen: bool
    /** Commits so far; it tells the keydown closures apart. */
    var commits: nat
    var overflow: Overflow
    /** This component's keydown listeners on `document`. */
    var listeners: set<KeyListener>

    /** While mounted, the body is locked exactly when the modal is open and
        exactly the latest open commit's listener is registered; once
        unmounted, the lock is released and no listener is left. */
    ghost predicate Valid()
      reads this
    {
      if mounted then
        overflow == (if isOpen then Hidden else Auto) &&
        listeners == (if isOpen then {KeyListener(commits, true)} else {})
      else
        overflow != Hidden && listeners == {}
    }

    constructor ()
      ensures Valid() && !mounted && overflow == Unset && listeners == {}
    {
      mounted, isOpen, commits := false, false, 0;
      overflow, listeners := Unset, {};
    }

    /** A render with prop `open` is committed: the effects of the previous
        commit are cleaned up and the new ones run. The overflow effect
        depends on `isOpen` only and re-runs when it changed (or on mount);
        the keydown effect depends on `onClose` too, which the parent
        recreates on every render, so it re-runs on every commit. */
    method Commit(open: bool)
      requires Valid()
      modifies this
      ensures Valid() && mounted && isOpen == open && commits == old(commits) + 1
      ensures overflow == if open then Hidden else Auto
      ensures listeners == if open then {KeyListener(commits, true)} else {}
      ensures |listeners| <= 1
    {
      var isOpenChanged := !mounted || open != isOpen;
      if mounted {
        if isOpenChanged {
          overflow := Auto;
        }
        listeners := listeners - {KeyListener(commits, isOpen)};
      }
      commits := commits + 1;
      if isOpenChanged {
        overflow := if open then Hidden else Auto;
      }
      if open {
        listeners := listeners + {KeyListener(commits, open)};
      }
      mounted, isOpen := true, open;
    }

    /** Teardown: both cleanups run, whatever the modal's state. */
    method Unmount()
      requires Valid() && mounted
      modifies this
      ensures Valid() && !mounted && overflow == Auto && listeners == {}
    {
      overflow := Auto;
      listeners := listeners - {KeyListener(commits, isOpen)};
      mounted := false;
    }

    /** A keydown on the document reaches every registered listener; the
        result says whether any of them calls `onClose`. */
    method KeyDown(key: string) returns (closes: bool)
      requires Valid()
      ensures closes <==> key == "Escape" && mounted && isOpen
    {
      closes := exists l | l in listeners :: CallsOnClose(l, key);
      if mounted && isOpen {
        assert KeyListener(commits, true) in listeners;
      }
    }
  }
}
