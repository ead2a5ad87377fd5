/** The UI store (src/store/slices/ui.ts): sidebar, dark mode and the
    notification banner. The transitions are functions on `UiState`, so that
    properties of several dispatches can be stated; `UiStore` applies them to
    its fields in place. */
module UiSlice {

  datatype NotificationSeverity = Success | Error | Warning | Info

  datatype Notification = Notification(open: bool, message: string, severity: NotificationSeverity)

  datatype UiState = UiState(sidebarOpen: bool, darkMode: bool, notification: Notification)

  const InitialUiState := UiState(true, false, Notification(false, "", Info))

  /* ---------- transitions ---------- */

  /** `toggleSidebar`: only the sidebar flag flips. */
  function ToggledSidebar(s: UiState): (t: UiState)
    ensures t.sidebarOpen != s.sidebarOpen
    ensures t.darkMode == s.darkMode && t.notification == s.notification
  {
    s.(sidebarOpen := !s.sidebarOpen)
  }

  /** `setSidebarOpen(open)` */
  function SidebarSet(s: UiState, open: bool): (t: UiState)
    ensures t.sidebarOpen == open
    ensures t.darkMode == s.darkMode && t.notification == s.notification
  {
    s.(sidebarOpen := open)
  }

  /** `toggleDarkMode`: only the dark-mode flag flips. */
  function ToggledDarkMode(s: UiState): (t: UiState)
    ensures t.darkMode != s.darkMode
    ensures t.sidebarOpen == s.sidebarOpen && t.notification == s.notification
  {
    s.(darkMode := !s.darkMode)
  }

  /** `showNotification({message, severity})`: an open banner with them. */
  function Shown(s: UiState, message: string, severity: NotificationSeverity): (t: UiState)
    ensures t.notification.open && t.notification.message == message && t.notification.severity == severity
    ensures t.sidebarOpen == s.sidebarOpen && t.darkMode == s.darkMode
  {
    s.(notification := Notification(true, message, severity))
  }

  /** `hideNotification`: the banner closes and keeps its text and severity. */
  function Hidden(s: UiState): (t: UiState)
    ensures !t.notification.open
    ensures t.notification.message == s.notification.message
    ensures t.notification.severity == s.notification.severity
    ensures t.sidebarOpen == s.sidebarOpen && t.darkMode == s.darkMode
  {
    s.(notification := s.notification.(open := false))
  }

  /* ---------- properties of several dispatches ---------- */

  lemma ToggleSidebarTwice(s: UiState)
    ensures ToggledSidebar(ToggledSidebar(s)) == s
  {
  }

  lemma ToggleDarkModeTwice(s: UiState)
    ensures ToggledDarkMode(ToggledDarkMode(s)) == s
  {
  }

  lemma SidebarSetIdempotent(s: UiState, open: bool)
    ensures SidebarSet(SidebarSet(s, open), open) == SidebarSet(s, open)
  {
  }

  /** Showing and then hiding leaves the message to be read again. */
  lemma ShowThenHide(s: UiState, message: string, severity: NotificationSeverity)
    ensures Hidden(Shown(s, message, severity)).notification == Notification(false, message, severity)
  {
  }

  /* ---------- the store ---------- */

  class UiStore {
    var sidebarOpen: bool
    var darkMode: bool
    var notification: Notification

    function View(): UiState
      reads this
    {
      UiState(sidebarOpen, darkMode, notification)
    }

    /** The store in its initial state: sidebar open, light mode, the banner
        closed with severity info. */
    constructor()
      ensures View() == InitialUiState
    {
      sidebarOpen := true;
      darkMode := false;
      notification := Notification(false, "", Info);
    }

    method ToggleSidebar()
      modifies this
      ensures View() == ToggledSidebar(old(View()))
    {
      sidebarOpen := !sidebarOpen;
    }

    method SetSidebarOpen(open: bool)
      modifies this
      ensures View() == SidebarSet(old(View()), open)
    {
      sidebarOpen := open;
    }

    method ToggleDarkMode()
      modifies this
      ensures View() == ToggledDarkMode(old(View()))
    {
      darkMode := !darkMode;
    }

    method ShowNotification(message: string, severity: NotificationSeverity)
      modifies this
      ensures View() == Shown(old(View()), message, severity)
    {
      notification := Notification(true, message, severity);
    }

    method HideNotification()
      modifies this
      ensures View() == Hidden(old(View()))
    {
      notification := notification.(open := false);
    }
  }
}
