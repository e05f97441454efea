/**
 * The two UI collaborators the client injects: the Angular `Router` and the
 * Material `MatSnackBar`. Neither is modelled; the object below only records,
 * in call order, what the core asks of them.
 */
module Ui {
  const LoginPath: string := "/login"
  /** The snack-bar duration, in milliseconds, used throughout the client. */
  const NoticeDuration: nat := 5000

  /** One request to a UI collaborator. */
  datatype Effect =
    | Navigation(commands: seq<string>)                         // `router.navigate(commands)`
    | Notification(message: string, action: string, duration: nat) // `matSnackBar.open(message, action, {duration})`

  class Effects {
    /** Every request made so far, oldest first. */
    var log: seq<Effect>

    constructor ()
      ensures log == []
    {
      log := [];
    }

    /** `router.navigate(commands)` */
    method Navigate(commands: seq<string>)
      modifies this
      ensures log == old(log) + [Navigation(commands)]
    {
      log := log + [Navigation(commands)];
    }

    /** `matSnackBar.open(message, action, {duration})` */
    method Open(message: string, action: string, duration: nat)
      modifies this
      ensures log == old(log) + [Notification(message, action, duration)]
    {
      log := log + [Notification(message, action, duration)];
    }
  }
}
