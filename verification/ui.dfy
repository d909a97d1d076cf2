/** The two side panels, their shared overlay and the floating filter button
    (js/ui.js:13-21), and the confirmation modal's callback slot
    (js/ui.js:25-73). */
module Ui {
  import opened Common

  /** A callback handed to the UI: an opaque reference. A slot holding
      `None` holds `null` (or anything that is not a function). */
  type CallbackId = nat

  /** The inline `style.display` of the floating filter button. */
  datatype Display = Unset | Flex | NoDisplay

  class Panels {
    var userOpen: bool        // `is-open` on #user-side-panel
    var filterOpen: bool      // `is-open` on #filter-side-panel
    var overlayVisible: bool  // #panel-overlay without `hidden`
    var fab: Display          // #open-filter-btn

    /** At most one panel is open, an open user panel has the overlay, and
        the overlay shows only over an open panel. The filter panel can be
        open without the overlay: `updateUI` hides the overlay whatever the
        filter panel shows. */
    ghost predicate Valid()
      reads this
    {
      !(userOpen && filterOpen) && (userOpen ==> overlayVisible) && (overlayVisible ==> userOpen || filterOpen)
    }

    /** The overlay shows exactly when a panel is open. */
    ghost predicate OverlayTracksPanels()
      reads this
    {
      overlayVisible <==> (userOpen || filterOpen)
    }

    constructor ()
      ensures Valid() && OverlayTracksPanels()
      ensures !userOpen && !filterOpen && !overlayVisible && fab == Unset
    {
      userOpen, filterOpen, overlayVisible, fab := false, false, false, Unset;
    }

    /** `closeFilterPanel`: the overlay is hidden only if the user panel is
        not open; the button is shown iff `isFilterFabVisible()` (passed in
        as `fabVisible`). Afterwards the overlay tracks the panels, even
        when it had been hidden under the open filter panel. */
    method CloseFilterPanel(fabVisible: bool)
      requires Valid()
      modifies this
      ensures Valid() && OverlayTracksPanels()
      ensures !filterOpen && userOpen == old(userOpen)
      ensures overlayVisible == old(userOpen)
      ensures fab == (if fabVisible then Flex else NoDisplay)
    {
      filterOpen := false;
      if !userOpen {
        overlayVisible := false;
      }
      if fabVisible {
        fab := Flex;
      } else {
        fab := NoDisplay;
      }
    }

    /** `closeUserPanel`: the overlay is hidden only if the filter panel is
        not open; under an open filter panel it stays as it was. */
    method CloseUserPanel()
      requires Valid()
      modifies this
      ensures Valid()
      ensures !userOpen && filterOpen == old(filterOpen) && fab == old(fab)
      ensures overlayVisible == (old(filterOpen) && old(overlayVisible))
      ensures old(OverlayTracksPanels()) ==> OverlayTracksPanels()
    {
      userOpen := false;
      if !filterOpen {
        overlayVisible := false;
      }
    }

    /** `openUserPanel`: closes the filter panel first. */
    method OpenUserPanel(fabVisible: bool)
      requires Valid()
      modifies this
      ensures Valid() && OverlayTracksPanels()
      ensures userOpen && !filterOpen && overlayVisible
      ensures fab == (if fabVisible then Flex else NoDisplay)
    {
      CloseFilterPanel(fabVisible);
      userOpen := true;
      overlayVisible := true;
    }

    /** `openFilterPanel`: closes the user panel first and hides the button. */
    method OpenFilterPanel()
      requires Valid()
      modifies this
      ensures Valid() && OverlayTracksPanels()
      ensures filterOpen && !userOpen && overlayVisible && fab == NoDisplay
    {
      CloseUserPanel();
      filterOpen := true;
      overlayVisible := true;
      fab := NoDisplay;
    }

    /** The filter button: an open panel is closed, a closed one opened. */
    method ToggleFilterPanel(fabVisible: bool)
      requires Valid()
      modifies this
      ensures Valid() && OverlayTracksPanels()
      ensures filterOpen == !old(filterOpen)
      ensures old(filterOpen) ==> userOpen == old(userOpen)
      ensures !old(filterOpen) ==> !userOpen
    {
      if filterOpen {
        CloseFilterPanel(fabVisible);
      } else {
        OpenFilterPanel();
      }
    }

    /** A click on the overlay closes both panels. */
    method CloseAllPanels(fabVisible: bool)
      requires Valid()
      modifies this
      ensures Valid() && OverlayTracksPanels()
      ensures !userOpen && !filterOpen && !overlayVisible
      ensures fab == (if fabVisible then Flex else NoDisplay)
    {
      CloseUserPanel();
      CloseFilterPanel(fabVisible);
    }
  }

  /** The confirmation modal. `ready` says whether its elements were found
      when the page initialised. */
  class ConfirmModal {
    const ready: bool
    var pending: Option<CallbackId>   // currentOnConfirmCallback
    var visible: bool

    constructor (ready: bool)
      ensures this.ready == ready && pending.None? && !visible
    {
      this.ready := ready;
      pending, visible := None, false;
    }

    /** `showConfirmationModal`: stores the action and shows the modal only
        when the modal's elements exist. */
    method Show(onConfirm: Option<CallbackId>)
      modifies this
      ensures ready ==> pending == onConfirm && visible
      ensures !ready ==> pending == old(pending) && visible == old(visible)
    {
      if ready {
        pending := onConfirm;
        visible := true;
      }
    }

    /** "Yes": runs the stored action (if any), hides the modal, clears the slot. */
    method ConfirmYes() returns (invoked: Option<CallbackId>)
      modifies this
      ensures invoked == old(pending)
      ensures pending.None? && !visible
    {
      invoked := pending;
      visible := false;
      pending := None;
    }

    /** "No": hides the modal and clears the slot without running it. */
    method ConfirmNo()
      modifies this
      ensures pending.None? && !visible
    {
      visible := false;
      pending := None;
    }
  }
}
