/**
 * The settings screen (pages/Settings.tsx): a tab selector, the project name
 * field, and a save action that runs as two chained timers: the first ends
 * the saving state and shows a toast, the second hides the toast.
 */
module SettingsPage {
  import opened Types
  import Button

  datatype Tab = General | Team | Billing

  const InitialProjectName: string := "dashboard-app"

  /** The props of the Save Changes button while `isSaving` holds. */
  function SaveButton(isSaving: bool): Button.Props
  {
    Button.Props(None, None, true, Some(isSaving), None, None)
  }

  class SettingsState {
    var activeTab: Tab
    var projectName: string
    var isSaving: bool
    var showToast: bool
    /** The 800 ms save timer has been scheduled and has not fired yet. */
    var saveTimerPending: bool
    /** The number of 3000 ms toast timers scheduled and not yet fired. */
    var toastTimers: nat

    /**
     * Saving lasts exactly while the save timer is pending, and a visible
     * toast always has a timer that will hide it.
     */
    ghost predicate Valid()
      reads this
    {
      (isSaving <==> saveTimerPending) && (showToast ==> toastTimers > 0)
    }

    ghost predicate Initial()
      reads this
    {
      activeTab == General && projectName == InitialProjectName && !isSaving && !showToast
      && !saveTimerPending && toastTimers == 0
    }

    constructor ()
      ensures Valid() && Initial()
    {
      activeTab, projectName := General, InitialProjectName;
      isSaving, showToast := false, false;
      saveTimerPending, toastTimers := false, 0;
    }

    /**
     * The Save Changes button is rendered only on the General tab and is
     * enabled only while not saving (SaveDisabledWhileSaving).
     */
    predicate CanSave()
      reads this
    {
      activeTab == General && !isSaving
    }

    /** A click on a tab makes it the single active tab. */
    method SelectTab(t: Tab)
      requires Valid()
      modifies this
      ensures Valid()
      ensures activeTab == t
      ensures projectName == old(projectName) && isSaving == old(isSaving) && showToast == old(showToast)
      ensures saveTimerPending == old(saveTimerPending) && toastTimers == old(toastTimers)
    {
      activeTab := t;
    }

    /** The project name field, rendered on the General tab. */
    method SetProjectName(s: string)
      requires Valid() && activeTab == General
      modifies this
      ensures Valid()
      ensures projectName == s
      ensures activeTab == old(activeTab) && isSaving == old(isSaving) && showToast == old(showToast)
      ensures saveTimerPending == old(saveTimerPending) && toastTimers == old(toastTimers)
    {
      projectName := s;
    }

    /** Save Changes: saving starts at once and the save timer is scheduled. */
    method Save()
      requires Valid() && CanSave()
      modifies this
      ensures Valid()
      ensures isSaving && saveTimerPending
      ensures activeTab == old(activeTab) && projectName == old(projectName)
      ensures showToast == old(showToast) && toastTimers == old(toastTimers)
    {
      isSaving := true;
      saveTimerPending := true;
    }

    /** The save timer fires: saving ends, the toast appears and its timer is scheduled. */
    method SaveTimerFired()
      requires Valid() && saveTimerPending
      modifies this
      ensures Valid()
      ensures !isSaving && !saveTimerPending && showToast
      ensures toastTimers == old(toastTimers) + 1
      ensures activeTab == old(activeTab) && projectName == old(projectName)
    {
      isSaving := false;
      saveTimerPending := false;
      showToast := true;
      toastTimers := toastTimers + 1;
    }

    /**
     * A toast timer fires: the toast disappears. When an earlier save's timer
     * fires after a later save has shown the toast again, this hides that
     * later toast early; the model permits that ordering.
     */
    method ToastTimerFired()
      requires Valid() && toastTimers > 0
      modifies this
      ensures Valid()
      ensures !showToast
      ensures toastTimers == old(toastTimers) - 1
      ensures activeTab == old(activeTab) && projectName == old(projectName)
      ensures isSaving == old(isSaving) && saveTimerPending == old(saveTimerPending)
    {
      showToast := false;
      toastTimers := toastTimers - 1;
    }

    /** The back arrow in the header. */
    method Back() returns (nav: Option<View>)
      ensures nav == Some(Dashboard)
    {
      nav := Some(Dashboard);
    }
  }

  /** The Save Changes button is disabled exactly while a save is in progress. */
  lemma SaveDisabledWhileSaving(isSaving: bool)
    ensures Button.Render(SaveButton(isSaving)).disabled <==> isSaving
    ensures Button.Render(SaveButton(isSaving)).spinner <==> isSaving
  {
  }

  /**
   * One save, start to finish: the button starts saving, the first timer
   * shows the toast, the second hides it; the name and tab are untouched.
   * Returns what is visible after each of the three steps.
   */
  method SaveRoundTrip(name: string) returns (savingAfterClick: bool, toastAfterFirst: bool, savingAfterFirst: bool, toastAfterSecond: bool, nameAfter: string)
    ensures savingAfterClick && toastAfterFirst && !savingAfterFirst && !toastAfterSecond
    ensures nameAfter == name
  {
    var s := new SettingsState();
    s.SetProjectName(name);
    s.Save();
    savingAfterClick := s.isSaving;
    s.SaveTimerFired();
    toastAfterFirst, savingAfterFirst := s.showToast, s.isSaving;
    s.ToastTimerFired();
    toastAfterSecond := s.showToast;
    nameAfter := s.projectName;
  }
}
