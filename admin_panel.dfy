/**
 * The admin panel's login gate: a session dictionary holding the
 * authenticated flag and the user name, set by a credential match and
 * cleared by logout, and one run of the page script over it.
 */
module AdminPanel {
  import opened Wrappers

  /** One row of the admin users table. */
  datatype Credential = Credential(username: string, password: string)

  /** admins_df[(username == u) & (password == p)]: the rows equal to (u, p), in table order. */
  function Matches(admins: seq<Credential>, u: string, p: string): (rows: seq<Credential>)
    ensures forall c :: c in rows <==> c in admins && c.username == u && c.password == p
    ensures |rows| <= |admins|
  {
    if admins == [] then []
    else
      assert forall c :: c in admins <==> c == admins[0] || c in admins[1..];
      (if admins[0].username == u && admins[0].password == p then [admins[0]] else []) + Matches(admins[1..], u, p)
  }

  /** Login succeeds exactly when the submitted pair is a row of the table. */
  lemma MatchIffRow(admins: seq<Credential>, u: string, p: string)
    ensures Matches(admins, u, p) != [] <==> Credential(u, p) in admins
  {
    if Matches(admins, u, p) != [] {
      assert Matches(admins, u, p)[0] in Matches(admins, u, p);
    }
  }

  /** A known user name with a password no row pairs it with is rejected. */
  lemma WrongPasswordRejected(admins: seq<Credential>, u: string, p: string)
    requires forall c :: c in admins && c.username == u ==> c.password != p
    ensures Matches(admins, u, p) == []
  {
    if Matches(admins, u, p) != [] {
      assert Matches(admins, u, p)[0] in Matches(admins, u, p);
    }
  }

  /** The session keys the page uses. */
  datatype Key = AdminAuthenticated | AdminUser

  /** Session values: the flag, or the user name (None before login). */
  datatype Value = Flag(on: bool) | User(name: Option<string>)

  /**
   * The session after lines 32-36: the flag defaults to false and the user
   * to None, but only where the key is missing.
   */
  function WithDefaults(m: map<Key, Value>): (d: map<Key, Value>)
    ensures d.Keys == m.Keys + {AdminAuthenticated, AdminUser}
    ensures forall k :: k in m ==> d[k] == m[k]
    ensures AdminAuthenticated !in m ==> d[AdminAuthenticated] == Flag(false)
    ensures AdminUser !in m ==> d[AdminUser] == User(None)
  {
    var m1 := if AdminAuthenticated in m then m else m[AdminAuthenticated := Flag(false)];
    if AdminUser in m1 then m1 else m1[AdminUser := User(None)]
  }

  /** What one run of the page ends in. */
  datatype Outcome =
    | LoginScreen(invalid: bool)      // st.stop(): nothing past the form runs
    | Rerun                           // st.rerun() after a login or a logout
    | Dashboard(user: Option<string>) // the dataset, metrics and EDA report are shown

  /** st.session_state, restricted to the admin page's keys. */
  class SessionState {
    var entries: map<Key, Value>

    /** A new browser session holds nothing. */
    constructor()
      ensures entries == map[]
    {
      entries := map[];
    }

    /** The flag is set and true. */
    function IsAuthenticated(): bool
      reads this
    {
      AdminAuthenticated in entries && entries[AdminAuthenticated] == Flag(true)
    }

    /** The stored user name, None when unset. */
    function UserName(): Option<string>
      reads this
    {
      if AdminUser in entries && entries[AdminUser].User? then entries[AdminUser].name else None
    }

    /** Lines 32-36: fill in the defaults, overwriting nothing. */
    method InitDefaults()
      modifies this
      ensures entries == WithDefaults(old(entries))
      ensures IsAuthenticated() <==> old(IsAuthenticated())
    {
      if AdminAuthenticated !in entries {
        entries := entries[AdminAuthenticated := Flag(false)];
      }
      if AdminUser !in entries {
        entries := entries[AdminUser := User(None)];
      }
    }

    /**
     * Lines 82-93: on an exact (username, password) match the flag becomes
     * true and the user the submitted name; otherwise nothing changes and
     * the caller shows the error.
     */
    method Login(admins: seq<Credential>, username: string, password: string) returns (ok: bool)
      modifies this
      ensures ok <==> Credential(username, password) in admins
      ensures ok ==> entries == old(entries)[AdminAuthenticated := Flag(true)][AdminUser := User(Some(username))]
      ensures ok ==> IsAuthenticated() && UserName() == Some(username)
      ensures !ok ==> entries == old(entries)
    {
      var rows := Matches(admins, username, password);
      MatchIffRow(admins, username, password);
      if rows != [] {
        entries := entries[AdminAuthenticated := Flag(true)];
        entries := entries[AdminUser := User(Some(username))];
        ok := true;
      } else {
        ok := false;
      }
    }

    /** Lines 120-122: session_state.clear() drops every key. */
    method Logout()
      modifies this
      ensures entries == map[]
      ensures !IsAuthenticated()
    {
      entries := map[];
    }
  }

  /**
   * One run of the page script. `submitted` is the login form's content when
   * its button was pressed, `logoutPressed` the logout button. The dashboard
   * (and with it the dataset and the EDA report) is reached only by a run
   * that starts authenticated.
   */
  method RunPage(session: SessionState, admins: seq<Credential>, submitted: Option<Credential>, logoutPressed: bool)
    returns (outcome: Outcome)
    modifies session
    ensures outcome.Dashboard? <==> old(session.IsAuthenticated()) && !logoutPressed
    ensures outcome.LoginScreen? <==> !old(session.IsAuthenticated()) && !(submitted.Some? && submitted.value in admins)
    ensures outcome.Dashboard? || outcome.LoginScreen? ==> session.entries == WithDefaults(old(session.entries))
    ensures outcome.Dashboard? ==> outcome.user == session.UserName()
    ensures outcome.LoginScreen? ==> !session.IsAuthenticated() && (outcome.invalid <==> submitted.Some?)
    ensures outcome == Rerun && old(session.IsAuthenticated()) ==> logoutPressed && session.entries == map[]
    ensures outcome == Rerun && !old(session.IsAuthenticated()) ==>
              submitted.Some? && submitted.value in admins && session.IsAuthenticated() &&
              session.UserName() == Some(submitted.value.username)
  {
    session.InitDefaults();
    if !session.IsAuthenticated() {
      if submitted.Some? {
        var ok := session.Login(admins, submitted.value.username, submitted.value.password);
        if ok {
          return Rerun;
        }
        return LoginScreen(true);
      }
      return LoginScreen(false);
    }
    if logoutPressed {
      session.Logout();
      return Rerun;
    }
    outcome := Dashboard(session.UserName());
  }

  /**
   * Logging out and letting the page rerun: the first run ends in a rerun
   * with an empty session, the second starts from the defaults and shows
   * the login form, no longer authenticated.
   */
  method LogoutThenRerun(session: SessionState, admins: seq<Credential>) returns (first: Outcome, second: Outcome)
    requires session.IsAuthenticated()
    modifies session
    ensures first == Rerun
    ensures second == LoginScreen(false)
    ensures session.entries == map[AdminAuthenticated := Flag(false), AdminUser := User(None)]
  {
    first := RunPage(session, admins, None, true);
    second := RunPage(session, admins, None, false);
  }
}
