/**
 * The sign-up confirmation trigger (backend/lambdas/postConfirmation/index.ts):
 * creates the profile of a newly confirmed user. It never fails the
 * confirmation: a missing email or a failed write only skips the profile.
 */
module PostConfirmationHandler {
  import opened Wrappers
  import opened Domain
  import opened Table
  import Db

  /** The fields of the trigger event the handler reads; the user name is the user's id. */
  datatype ConfirmationEvent = ConfirmationEvent(userPoolId: string, userName: string, email: Option<string>)

  /** True when the event carries a usable (non-empty) email. */
  predicate HasEmail(event: ConfirmationEvent) {
    event.email.Some? && event.email.value != ""
  }

  method Handle(store: Store, event: ConfirmationEvent, env: Env) returns (out: ConfirmationEvent)
    modifies store
    ensures out == event
    ensures !HasEmail(event) || PutUserCall in env.failing ==> store.items == old(store.items)
    ensures HasEmail(event) && PutUserCall !in env.failing ==>
      store.items == Db.PutProfile(old(store.items), event.userName, event.email.value, env.nowMs)
  {
    if !HasEmail(event) {
      return event;
    }
    var created := Db.CreateUser(store, event.userName, event.email.value, env);
    out := event;
  }

  /**
   * The profile is written with a plain Put: if the trigger runs again for a
   * user who already plays, their score is reset to 0. The handler does not
   * look at the event's trigger source, so the confirmation that follows a
   * forgotten-password reset runs this write too.
   */
  lemma ReconfirmationResetsScore(t: Table, event: ConfirmationEvent, nowMs: int)
    requires HasEmail(event)
    requires Db.GetUser(t, event.userName).Some? && Db.GetUser(t, event.userName).value.score != 0
    ensures Db.GetUser(Db.PutProfile(t, event.userName, event.email.value, nowMs), event.userName).value.score == 0
    ensures Db.GetUser(Db.PutProfile(t, event.userName, event.email.value, nowMs), event.userName).value.score
         != Db.GetUser(t, event.userName).value.score
  {
    Db.CreatedUserReadsBack(t, event.userName, event.email.value, nowMs);
  }
}
