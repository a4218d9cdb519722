/** What the login and registration screens share: the alert, the effects a
    button press produces in order, and the verdict of a form check. */
module Forms {
  import opened Firestore

  /** `Alert.alert(title, message)` */
  datatype Alert = Alert(title: string, message: string)

  /** One observable step of a button handler, in the order it happens:
      an alert, a change of the `loading` flag, a call into the identity
      provider or the document store, or a navigation. */
  datatype Effect =
    | ShowAlert(alert: Alert)
    | SetLoading(on: bool)
    | CreateUser(email: string, password: string)
    | UpdateProfile(uid: string, displayName: string)
    | WriteUser(path: seq<string>, record: UserRecord)
    | SignIn(email: string, password: string)
    | Navigate(screen: string)

  /** A call that leaves the device. */
  predicate IsBackendCall(e: Effect) {
    e.CreateUser? || e.UpdateProfile? || e.WriteUser? || e.SignIn?
  }

  /** The verdict of `validateForm`: a pass, or the one alert to show. */
  datatype FormCheck = Valid | Invalid(alert: Alert)

  /** The handler raised `loading` first and lowered it last, touching it
      nowhere in between: every call of the attempt ran while it was true. */
  predicate LoadingBracketed(effects: seq<Effect>) {
    |effects| >= 2 &&
    effects[0] == SetLoading(true) &&
    effects[|effects| - 1] == SetLoading(false) &&
    forall i :: 0 < i < |effects| - 1 ==> !effects[i].SetLoading?
  }
}
