/** The page root: it owns `selectedProject`, passes `isOpen` and `onClose`
    to the modal, and hands the gallery `setSelectedProject` as its select
    callback. Each state change re-renders the page, which commits the
    modal with the new `isOpen`. */
module Portfolio {
  import opened Wrappers
  import opened ProjectData
  import Projects
  import ProjectModal

  class PortfolioRoot {
    var selectedProject: Option<Project>
    const gallery: Projects.Gallery
    const modal: ProjectModal.ModalHost

    /** `isOpen={selectedProject !== null}`. */
    function IsOpen(): (open: bool)
      reads this
      ensures open <==> selectedProject.Some?
    {
      selectedProject != None
    }

    /** The modal is mounted and was last committed with `IsOpen()`. */
    ghost predicate Valid()
      reads this, modal
    {
      modal.Valid() && modal.mounted && modal.isOpen == IsOpen()
    }

    /** The body is scroll-locked exactly while a project is selected, and
        then exactly one Escape listener is registered. */
    lemma LockMatchesSelection()
      requires Valid()
      ensures modal.overflow == ProjectModal.Hidden <==> selectedProject.Some?
      ensures |modal.listeners| == if selectedProject.Some? then 1 else 0
    {
    }

    /** Mounting: nothing is selected, the filter is "all", the body is not
        locked. */
    constructor ()
      ensures Valid() && fresh(modal) && fresh(gallery)
      ensures selectedProject == None && gallery.activeFilter == Projects.All
      ensures modal.overflow == ProjectModal.Auto && modal.listeners == {}
    {
      selectedProject := None;
      gallery := new Projects.Gallery();
      modal := new ProjectModal.ModalHost();
      new;
      modal.Commit(false);
    }

    /** What the modal renders for the current selection. */
    function ModalView(): (v: ProjectModal.View<Project>)
      reads this
      ensures v.Shown? <==> selectedProject.Some?
      ensures v.Shown? ==> v.project == selectedProject.value
    {
      ProjectModal.Render(selectedProject, IsOpen())
    }

    /** `onProjectSelect`: the gallery's "details" button for `p`. */
    method OnProjectSelect(p: Project)
      requires Valid()
      modifies this, modal
      ensures Valid() && selectedProject == Some(p)
      ensures modal.overflow == ProjectModal.Hidden && |modal.listeners| == 1
    {
      selectedProject := Some(p);
      modal.Commit(IsOpen());
    }

    /** `onClose`. */
    method OnClose()
      requires Valid()
      modifies this, modal
      ensures Valid() && selectedProject == None
      ensures modal.overflow == ProjectModal.Auto && modal.listeners == {}
    {
      selectedProject := None;
      modal.Commit(IsOpen());
    }

    /** A keydown on the document: Escape closes an open modal, every other
        key, and Escape while closed, change nothing. */
    method KeyDown(key: string)
      requires Valid()
      modifies this, modal
      ensures Valid()
      ensures key == "Escape" && old(selectedProject).Some? ==> selectedProject == None
      ensures !(key == "Escape" && old(selectedProject).Some?) ==>
        selectedProject == old(selectedProject) && unchanged(modal)
    {
      var closes := modal.KeyDown(key);
      if closes {
        OnClose();
      }
    }

    /** A click on an element of the open modal. Setting the selection to
        null once or several times within one event gives one update. */
    method Click(target: ProjectModal.Element)
      requires Valid() && selectedProject.Some?
      modifies this, modal
      ensures Valid()
      ensures target == ProjectModal.Backdrop || target == ProjectModal.CloseButton ==> selectedProject == None
      ensures target == ProjectModal.Panel || target == ProjectModal.PanelContent ==>
        selectedProject == old(selectedProject) && unchanged(modal)
    {
      var calls := ProjectModal.OnCloseCalls(target);
      if calls > 0 {
        OnClose();
      }
    }

    /** The page is torn down: the modal's cleanups release the lock. */
    method Teardown()
      requires Valid()
      modifies modal
      ensures modal.Valid() && !modal.mounted
      ensures modal.overflow == ProjectModal.Auto && modal.listeners == {}
    {
      modal.Unmount();
    }
  }
}
