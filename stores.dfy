/**
 * The client-side stores (apps/web/lib/stores.ts): the UI selection store,
 * which holds the active project, the task modal and the task being edited,
 * the invite modal and the view mode, and the theme store. Every action
 * overwrites a fixed subset of the fields and leaves the others as they were.
 */
module Stores {
  import opened Model

  datatype ViewMode = Board | Table

  datatype Theme = Light | Dark

  class UIStore {
    var activeProjectId: Option<string>
    var isModalOpen: bool
    var isInviteModalOpen: bool
    var viewMode: ViewMode
    var editingTaskId: Option<string>

    /** A task is only ever being edited while the task modal is open. */
    ghost predicate Valid()
      reads this
    {
      editingTaskId.Some? ==> isModalOpen
    }

    /** The initial state: nothing selected, both modals closed, board view. */
    constructor ()
      ensures Valid()
      ensures activeProjectId == None && !isModalOpen && !isInviteModalOpen
      ensures viewMode == Board && editingTaskId == None
    {
      activeProjectId := None;
      isModalOpen := false;
      isInviteModalOpen := false;
      viewMode := Board;
      editingTaskId := None;
    }

    /** `setActiveProjectId`: switching project leaves the modals as they are. */
    method SetActiveProjectId(id: Option<string>)
      requires Valid()
      modifies this
      ensures Valid()
      ensures activeProjectId == id
      ensures isModalOpen == old(isModalOpen) && editingTaskId == old(editingTaskId)
      ensures isInviteModalOpen == old(isInviteModalOpen) && viewMode == old(viewMode)
    {
      activeProjectId := id;
    }

    /**
     * `openModal(taskId?)`: opens the task modal; without an id (`taskId ?? null`)
     * nothing is being edited, which is create mode.
     */
    method OpenModal(taskId: Option<string>)
      modifies this
      ensures Valid()
      ensures isModalOpen && editingTaskId == taskId
      ensures activeProjectId == old(activeProjectId)
      ensures isInviteModalOpen == old(isInviteModalOpen) && viewMode == old(viewMode)
    {
      isModalOpen := true;
      editingTaskId := taskId;
    }

    /** `closeModal`: closes the task modal and forgets the edited task, from any state. */
    method CloseModal()
      modifies this
      ensures Valid()
      ensures !isModalOpen && editingTaskId == None
      ensures activeProjectId == old(activeProjectId)
      ensures isInviteModalOpen == old(isInviteModalOpen) && viewMode == old(viewMode)
    {
      isModalOpen := false;
      editingTaskId := None;
    }

    /** `openInviteModal`: independent of the task modal. */
    method OpenInviteModal()
      requires Valid()
      modifies this
      ensures Valid()
      ensures isInviteModalOpen
      ensures activeProjectId == old(activeProjectId) && viewMode == old(viewMode)
      ensures isModalOpen == old(isModalOpen) && editingTaskId == old(editingTaskId)
    {
      isInviteModalOpen := true;
    }

    /** `closeInviteModal`: independent of the task modal. */
    method CloseInviteModal()
      requires Valid()
      modifies this
      ensures Valid()
      ensures !isInviteModalOpen
      ensures activeProjectId == old(activeProjectId) && viewMode == old(viewMode)
      ensures isModalOpen == old(isModalOpen) && editingTaskId == old(editingTaskId)
    {
      isInviteModalOpen := false;
    }

    /** `setViewMode` */
    method SetViewMode(mode: ViewMode)
      requires Valid()
      modifies this
      ensures Valid()
      ensures viewMode == mode
      ensures activeProjectId == old(activeProjectId) && isInviteModalOpen == old(isInviteModalOpen)
      ensures isModalOpen == old(isModalOpen) && editingTaskId == old(editingTaskId)
    {
      viewMode := mode;
    }
  }

  /** The other theme. */
  function Toggled(t: Theme): (r: Theme)
    ensures r != t
  {
    if t == Light then Dark else Light
  }

  /** Toggling twice gives back the theme one started from. */
  lemma ToggleTwice(t: Theme)
    ensures Toggled(Toggled(t)) == t
  {
  }

  class ThemeStore {
    var theme: Theme

    constructor ()
      ensures theme == Light
    {
      theme := Light;
    }

    /** `toggleTheme`: swaps light and dark. */
    method ToggleTheme()
      modifies this
      ensures theme == Toggled(old(theme))
    {
      theme := if theme == Light then Dark else Light;
    }
  }
}
