/**
 * The dashboard screen (pages/Dashboard.tsx): row selection, a single-open
 * row action menu, a three-step create wizard in a modal, a delete
 * confirmation modal that deletes nothing, and sidebar navigation.
 */
module DashboardPage {
  import opened Types
  import Modal

  datatype Status = Live | Building | Failed | Queued

  datatype Deployment = Deployment(
    id: string, project: string, commit: string, branch: string,
    status: Status, time: string, author: string)

  /** The fixed deployments the table shows. */
  function MockDeployments(): seq<Deployment>
  {
    [ Deployment("d-10f9a2", "marketing-site", "Fix header alignment", "main", Live, "2m ago", "alex"),
      Deployment("d-8b2c1d", "dashboard-app", "Update api keys", "dev", Building, "15s ago", "sarah"),
      Deployment("d-7c3e4f", "marketing-site", "Revert color changes", "main", Live, "1h ago", "alex"),
      Deployment("d-6d5e5g", "api-gateway", "Refactor auth middleware", "feat/auth", Failed, "3h ago", "mike"),
      Deployment("d-5e6f6h", "dashboard-app", "Init project", "main", Live, "1d ago", "sarah") ]
  }

  /** The ids of the rows of a table. */
  function RowIds(rows: seq<Deployment>): (ids: set<string>)
    ensures forall i :: 0 <= i < |rows| ==> rows[i].id in ids
    ensures forall x :: x in ids ==> exists i :: 0 <= i < |rows| && rows[i].id == x
  {
    set i | 0 <= i < |rows| :: rows[i].id
  }

  /** `toggleRow`: adds `id` when absent, removes it when present, and leaves every other id alone. */
  function Toggled(s: set<string>, id: string): (r: set<string>)
    ensures id in r <==> id !in s
    ensures forall x :: x != id ==> (x in r <==> x in s)
  {
    if id in s then s - {id} else s + {id}
  }

  /** Toggling the same row twice restores the selection. */
  lemma ToggleTwice(s: set<string>, id: string)
    ensures Toggled(Toggled(s, id), id) == s
  {
  }

  /** A row's menu button: opens that row's menu, or closes it if it is the open one. */
  function MenuClicked(active: Option<string>, id: string): (r: Option<string>)
    ensures r == Some(id) <==> active != Some(id)
    ensures r.Some? ==> r.value == id
  {
    if active == Some(id) then None else Some(id)
  }

  /**
   * A row shows its menu when its id is the active one. The table's ids are
   * distinct, so at most one row shows its menu.
   */
  lemma AtMostOneMenuOpen(active: Option<string>, i: int, j: int)
    requires 0 <= i < |MockDeployments()| && 0 <= j < |MockDeployments()|
    requires active == Some(MockDeployments()[i].id) && active == Some(MockDeployments()[j].id)
    ensures i == j
  {
  }

  /** The sidebar buttons. */
  datatype SidebarButton = Overview | SettingsLink | SignOut

  function SidebarTarget(b: SidebarButton): (nav: Option<View>)
    ensures b == SettingsLink ==> nav == Some(Settings)
    ensures b == SignOut ==> nav == Some(Landing)
    ensures b == Overview ==> nav == None
  {
    match b
    case Overview => None
    case SettingsLink => Some(Settings)
    case SignOut => Some(Landing)
  }

  class DashboardState {
    const rows: seq<Deployment>
    var isCreateOpen: bool
    var isDeleteOpen: bool
    var activeDropdown: Option<string>
    var selectedRows: set<string>
    var createStep: int

    /**
     * The wizard step stays in 1..3 and is 1 whenever the create modal is
     * closed; selections and the open menu refer to rows of the table.
     */
    ghost predicate Valid()
      reads this
    {
      && 1 <= createStep <= 3
      && (!isCreateOpen ==> createStep == 1)
      && selectedRows <= RowIds(rows)
      && (activeDropdown.Some? ==> activeDropdown.value in RowIds(rows))
    }

    ghost predicate Initial()
      reads this
    {
      && rows == MockDeployments()
      && !isCreateOpen && !isDeleteOpen && activeDropdown == None
      && selectedRows == {} && createStep == 1
    }

    constructor ()
      ensures Valid() && Initial()
    {
      rows := MockDeployments();
      isCreateOpen, isDeleteOpen := false, false;
      activeDropdown, selectedRows, createStep := None, {}, 1;
    }

    /** A row's checkbox. */
    method ToggleRow(id: string)
      requires Valid() && id in RowIds(rows)
      modifies this
      ensures Valid()
      ensures selectedRows == Toggled(old(selectedRows), id)
      ensures isCreateOpen == old(isCreateOpen) && isDeleteOpen == old(isDeleteOpen)
      ensures activeDropdown == old(activeDropdown) && createStep == old(createStep)
    {
      var next := selectedRows;
      if id in next {
        next := next - {id};
      } else {
        next := next + {id};
      }
      selectedRows := next;
    }

    /** A row's menu button. */
    method MenuButton(id: string)
      requires Valid() && id in RowIds(rows)
      modifies this
      ensures Valid()
      ensures activeDropdown == MenuClicked(old(activeDropdown), id)
      ensures isCreateOpen == old(isCreateOpen) && isDeleteOpen == old(isDeleteOpen)
      ensures selectedRows == old(selectedRows) && createStep == old(createStep)
    {
      activeDropdown := if activeDropdown == Some(id) then None else Some(id);
    }

    /** The transparent overlay, rendered while a menu is open, closes it. */
    method OutsideClick()
      requires Valid() && activeDropdown.Some?
      modifies this
      ensures Valid()
      ensures activeDropdown == None
      ensures isCreateOpen == old(isCreateOpen) && isDeleteOpen == old(isDeleteOpen)
      ensures selectedRows == old(selectedRows) && createStep == old(createStep)
    {
      activeDropdown := None;
    }

    /** Delete Deployment in the open menu: opens the confirmation and closes the menu. */
    method DeleteFromMenu(id: string)
      requires Valid() && activeDropdown == Some(id)
      modifies this
      ensures Valid()
      ensures isDeleteOpen && activeDropdown == None
      ensures isCreateOpen == old(isCreateOpen)
      ensures selectedRows == old(selectedRows) && createStep == old(createStep)
    {
      isDeleteOpen := true;
      activeDropdown := None;
    }

    /** New Project: opens the create wizard, which always starts at step 1. */
    method NewProject()
      requires Valid()
      modifies this
      ensures Valid()
      ensures isCreateOpen && createStep == old(createStep)
      ensures !old(isCreateOpen) ==> createStep == 1
      ensures isDeleteOpen == old(isDeleteOpen) && activeDropdown == old(activeDropdown)
      ensures selectedRows == old(selectedRows)
    {
      isCreateOpen := true;
    }

    /** Next Step, shown in the wizard's footer while the step is below 3. */
    method CreateNext()
      requires Valid() && isCreateOpen && createStep < 3
      modifies this
      ensures Valid()
      ensures createStep == old(createStep) + 1
      ensures isCreateOpen && isDeleteOpen == old(isDeleteOpen)
      ensures activeDropdown == old(activeDropdown) && selectedRows == old(selectedRows)
    {
      createStep := createStep + 1;
    }

    /** Closes the wizard and resets its step: the body of Cancel, Deploy Project and `onClose`. */
    method CloseCreate()
      requires Valid()
      modifies this
      ensures Valid()
      ensures !isCreateOpen && createStep == 1
      ensures isDeleteOpen == old(isDeleteOpen) && activeDropdown == old(activeDropdown)
      ensures selectedRows == old(selectedRows)
    {
      isCreateOpen := false;
      createStep := 1;
    }

    /** Cancel in the wizard's footer. */
    method CreateCancel()
      requires Valid() && isCreateOpen
      modifies this
      ensures Valid()
      ensures !isCreateOpen && createStep == 1
      ensures isDeleteOpen == old(isDeleteOpen) && activeDropdown == old(activeDropdown)
      ensures selectedRows == old(selectedRows)
    {
      CloseCreate();
    }

    /** Deploy Project, shown in the wizard's footer in place of Next Step once the step reaches 3. */
    method CreateDeploy()
      requires Valid() && isCreateOpen && !(createStep < 3)
      modifies this
      ensures Valid()
      ensures !isCreateOpen && createStep == 1
      ensures isDeleteOpen == old(isDeleteOpen) && activeDropdown == old(activeDropdown)
      ensures selectedRows == old(selectedRows)
    {
      CloseCreate();
    }

    /** An Escape keydown, backdrop click or X click delivered to the wizard's modal. */
    method CreateModalEvent(e: Modal.Event)
      requires Valid()
      modifies this
      ensures Valid()
      ensures Modal.CallsOnClose(old(isCreateOpen), e) ==> !isCreateOpen && createStep == 1
      ensures !Modal.CallsOnClose(old(isCreateOpen), e) ==>
        isCreateOpen == old(isCreateOpen) && createStep == old(createStep)
      ensures isDeleteOpen == old(isDeleteOpen) && activeDropdown == old(activeDropdown)
      ensures selectedRows == old(selectedRows)
    {
      if Modal.CallsOnClose(isCreateOpen, e) {
        CloseCreate();
      }
    }

    /**
     * Cancel or Delete Permanently in the confirmation's footer: both only
     * close the confirmation; the rows stay as they are.
     */
    method DeleteButton(confirm: bool)
      requires Valid() && isDeleteOpen
      modifies this
      ensures Valid()
      ensures !isDeleteOpen
      ensures isCreateOpen == old(isCreateOpen) && activeDropdown == old(activeDropdown)
      ensures selectedRows == old(selectedRows) && createStep == old(createStep)
    {
      isDeleteOpen := false;
    }

    /** An Escape keydown, backdrop click or X click delivered to the confirmation's modal. */
    method DeleteModalEvent(e: Modal.Event)
      requires Valid()
      modifies this
      ensures Valid()
      ensures isDeleteOpen == (old(isDeleteOpen) && !Modal.CallsOnClose(old(isDeleteOpen), e))
      ensures isCreateOpen == old(isCreateOpen) && activeDropdown == old(activeDropdown)
      ensures selectedRows == old(selectedRows) && createStep == old(createStep)
    {
      if Modal.CallsOnClose(isDeleteOpen, e) {
        isDeleteOpen := false;
      }
    }

    /** A sidebar button; `nav` is the view passed to `navigateTo`, if any. */
    method Sidebar(b: SidebarButton) returns (nav: Option<View>)
      ensures nav == SidebarTarget(b)
    {
      nav := SidebarTarget(b);
    }
  }

  /**
   * Walking the wizard: from a freshly opened wizard, Next twice reaches the
   * last step, where Next is no longer offered; Deploy closes it at step 1.
   */
  method WizardWalk() returns (steps: seq<int>, nextOfferedAtEnd: bool, openAfterDeploy: bool, stepAfterDeploy: int)
    ensures steps == [1, 2, 3]
    ensures !nextOfferedAtEnd && !openAfterDeploy && stepAfterDeploy == 1
  {
    var d := new DashboardState();
    d.NewProject();
    steps := [d.createStep];
    d.CreateNext();
    steps := steps + [d.createStep];
    d.CreateNext();
    steps := steps + [d.createStep];
    nextOfferedAtEnd := d.createStep < 3;
    d.CreateDeploy();
    openAfterDeploy, stepAfterDeploy := d.isCreateOpen, d.createStep;
  }
}
