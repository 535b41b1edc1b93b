/**
 * The overlay primitive (components/Modal.tsx). While closed it renders
 * nothing and listens to nothing; while open an Escape keydown, a click on
 * the backdrop or a click on the X button calls its `onClose` callback.
 */
module Modal {
  import opened Types

  /** The inputs a modal can receive. */
  datatype Event = KeyDown(key: string) | BackdropClick | CloseButtonClick

  /** What an open modal renders around its title and children. */
  datatype Frame = Frame(footerShown: bool)

  /** A closed modal renders nothing; an open one shows the footer region only when given one. */
  function Render(isOpen: bool, hasFooter: bool): (r: Option<Frame>)
    ensures r.None? <==> !isOpen
    ensures r.Some? ==> (r.value.footerShown <==> hasFooter)
  {
    if isOpen then Some(Frame(hasFooter)) else None
  }

  /**
   * Whether `e` makes the modal call `onClose`. The Escape listener exists
   * only while the modal is open, and the backdrop and X button are rendered
   * only then, so a closed modal ignores every event.
   */
  function CallsOnClose(isOpen: bool, e: Event): (r: bool)
    ensures r ==> isOpen
    ensures isOpen && (e.BackdropClick? || e.CloseButtonClick?) ==> r
    ensures e.KeyDown? ==> (r <==> isOpen && e.key == "Escape")
  {
    isOpen && match e
      case KeyDown(k) => k == "Escape"
      case BackdropClick => true
      case CloseButtonClick => true
  }

  /**
   * The window keydown subscription of one modal. The effect depends on
   * `isOpen` and `onClose`; every caller passes a new `onClose` arrow, so it
   * re-runs on every render: its cleanup removes the listener and, when open,
   * it installs a fresh one.
   */
  class EscapeListener {
    var installed: bool

    constructor ()
      ensures !installed
    {
      installed := false;
    }

    /** Runs the effect for the current `isOpen`: cleanup, then install if open. */
    method Sync(isOpen: bool)
      modifies this
      ensures installed == isOpen
    {
      installed := false;
      if isOpen {
        installed := true;
      }
    }

    /** Delivers one keydown to the window; reports whether `onClose` was called. */
    method Deliver(key: string) returns (closeCalled: bool)
      ensures closeCalled == CallsOnClose(installed, KeyDown(key))
      ensures closeCalled <==> installed && key == "Escape"
    {
      closeCalled := CallsOnClose(installed, KeyDown(key));
    }
  }
}
