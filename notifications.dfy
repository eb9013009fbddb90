// The single notification slot of `NotificationProvider`: a new
// notification overwrites the old one and closing only hides it.
module Notifications {
  import opened Wrappers
  import opened Text

  datatype NotificationType = Success | Error

  class NotificationProvider {
    var kind: NotificationType
    var message: String
    var show: bool

    /** Initially an empty, hidden success notification. */
    constructor()
      ensures kind == Success && message == "" && !show
    {
      kind, message, show := Success, "", false;
    }

    /** `showNotification`: only the latest notification survives. */
    method ShowNotification(k: NotificationType, m: String)
      modifies this
      ensures kind == k && message == m && show
    {
      kind, message, show := k, m, true;
    }

    /** `handleClose`: hidden, with type and message kept. */
    method HandleClose()
      modifies this
      ensures !show && kind == old(kind) && message == old(message)
    {
      show := false;
    }

    /** What is on screen: the notification exactly while `show` holds. */
    function Rendered(): (r: Option<(NotificationType, String)>)
      reads this
      ensures r.Some? <==> show
      ensures r.Some? ==> r.value == (kind, message)
    {
      if show then Some((kind, message)) else None
    }
  }

  const OutsideProviderError := "useNotification must be used within a NotificationProvider"

  /** `useNotification`: the provider's context, or an error outside one. */
  function UseNotification(context: Option<NotificationProvider>): (r: Result<NotificationProvider, String>)
    ensures r.Err? <==> context.None?
    ensures r.Err? ==> r.error == OutsideProviderError
    ensures r.Ok? ==> r.value == context.value
  {
    match context
    case None => Err(OutsideProviderError)
    case Some(p) => Ok(p)
  }
}
