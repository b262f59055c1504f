/** `admin_alert_email`: the alert goes to every superuser, in user order,
    and to nobody when e-mail is switched off. */
module Alerts {

  /** A user row, reduced to what the alert reads. */
  datatype User = User(email: string, isSuperuser: bool)

  /** One `send_admin_alert_email(email_to, message)` call. */
  datatype AlertEmail = AlertEmail(emailTo: string, message: string)

  /** The alert e-mails due to `users`, one per superuser, in user order. */
  function SuperuserAlerts(users: seq<User>, message: string): (r: seq<AlertEmail>)
    ensures |r| <= |users|
    ensures forall m :: m in r ==> m.message == message
    ensures forall m :: m in r <==>
      m.message == message && exists u :: u in users && u.isSuperuser && u.email == m.emailTo
  {
    if users == [] then []
    else
      var init := users[..|users| - 1];
      var last := users[|users| - 1];
      assert forall u :: u in users <==> u in init || u == last;
      SuperuserAlerts(init, message) + (if last.isSuperuser then [AlertEmail(last.email, message)] else [])
  }

  /** The sends `admin_alert_email` performs, in order. */
  method AdminAlertEmail(emailsEnabled: bool, users: seq<User>, message: string)
    returns (sent: seq<AlertEmail>)
    ensures sent == if emailsEnabled then SuperuserAlerts(users, message) else []
  {
    sent := [];
    if emailsEnabled {
      var i := 0;
      while i < |users|
        invariant 0 <= i <= |users|
        invariant sent == SuperuserAlerts(users[..i], message)
      {
        if users[i].isSuperuser {
          sent := sent + [AlertEmail(users[i].email, message)];
        }
        assert users[..i + 1][..i] == users[..i];
        i := i + 1;
      }
      assert users[..i] == users;
    }
  }

  /** Alerts follow user order: the alerts for a concatenation are the
      alerts for its first part followed by those for its second. */
  lemma {:induction false} SuperuserAlertsAppend(first: seq<User>, second: seq<User>, message: string)
    ensures SuperuserAlerts(first + second, message) ==
            SuperuserAlerts(first, message) + SuperuserAlerts(second, message)
  {
    if second == [] {
      assert first + second == first;
    } else {
      var all := first + second;
      var shorter := second[..|second| - 1];
      assert all[..|all| - 1] == first + shorter;
      assert all[|all| - 1] == second[|second| - 1];
      SuperuserAlertsAppend(first, shorter, message);
    }
  }
}
