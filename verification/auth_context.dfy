/** The session state (src/context/AuthContext.tsx): the signed-in agent, the
    loading flag, and login/logout over the sample agent table. The saved-session
    store of the browser is an input to the start-up step; the toasts are left out. */
module AuthContext {
  import opened Wrappers
  import opened MockData

  class AuthProvider {
    var currentUser: Option<Agent>
    var loading: bool
    /** The browser's saved-session entry `claimsAgent`. */
    var stored: Option<Agent>

    constructor (stored0: Option<Agent>)
      ensures currentUser.None? && loading && stored == stored0
    {
      currentUser := None;
      loading := true;
      stored := stored0;
    }

    /** `isAuthenticated`: an agent is signed in. */
    predicate IsAuthenticated()
      reads this
      ensures IsAuthenticated() <==> currentUser.Some?
    {
      currentUser.Some?
    }

    /** The start-up effect: a saved agent, if there is one, becomes the current user;
        loading ends either way. */
    method RestoreSession()
      modifies this`currentUser, this`loading
      ensures currentUser == if stored.Some? then stored else old(currentUser)
      ensures !loading
    {
      if stored.Some? {
        currentUser := stored;
      }
      loading := false;
    }

    /** `login`: an agent with the e-mail is signed in, whatever the password. The
        session is then saved; `storageFails` is a save that throws, which lands in the
        `catch` branch: the answer is false although the agent stays signed in.
        Loading is off afterwards. */
    method Login(email: string, password: string, storageFails: bool) returns (ok: bool)
      modifies this
      ensures ok <==> (exists i :: 0 <= i < |SampleAgents| && SampleAgents[i].email == email) && !storageFails
      ensures (exists i :: 0 <= i < |SampleAgents| && SampleAgents[i].email == email) ==>
                currentUser == GetAgentByEmail(SampleAgents, email) && IsAuthenticated()
      ensures (forall i :: 0 <= i < |SampleAgents| ==> SampleAgents[i].email != email) ==>
                currentUser == old(currentUser)
      ensures stored == if ok then currentUser else old(stored)
      ensures !loading
    {
      loading := true;
      var agent := GetAgentByEmail(SampleAgents, email);
      if agent.Some? {
        currentUser := agent;
        if storageFails {
          ok := false;
        } else {
          stored := agent;
          ok := true;
        }
      } else {
        ok := false;
      }
      loading := false;
    }

    /** `logout`: nobody is signed in and the saved session is removed. */
    method Logout()
      modifies this`currentUser, this`stored
      ensures currentUser.None? && !IsAuthenticated()
      ensures stored.None?
    {
      currentUser := None;
      stored := None;
    }
  }

  /** A session saved by a successful login is restored on the next start; after a
      failed one a fresh start finds nobody. */
  method LoginThenRestart(email: string, password: string) returns (restored: Option<Agent>)
    ensures (exists i :: 0 <= i < |SampleAgents| && SampleAgents[i].email == email) ==>
              restored == GetAgentByEmail(SampleAgents, email)
    ensures (forall i :: 0 <= i < |SampleAgents| ==> SampleAgents[i].email != email) ==>
              restored.None?
  {
    var first := new AuthProvider(None);
    var ok := first.Login(email, password, false);
    var second := new AuthProvider(first.stored);
    second.RestoreSession();
    restored := second.currentUser;
  }

  /** Every sample agent signs in as itself with its own e-mail, and a successful
      lookup always yields an agent of the table with that e-mail. */
  lemma LoginResolvesOwnAgent(a: Agent, email: string)
    ensures a in SampleAgents ==> GetAgentByEmail(SampleAgents, a.email) == Some(a)
    ensures GetAgentByEmail(SampleAgents, email) == Some(a) ==> a in SampleAgents && a.email == email
  {
    if a in SampleAgents {
      SampleEmailsDistinct();
      GetAgentByEmailFindsMember(SampleAgents, a);
    }
  }
}
