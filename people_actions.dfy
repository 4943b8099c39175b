/**
 * The invite action (app/zapier/people/actions.js): look the e-mail address
 * up among the portal's accounts, and invite it only when it is not there.
 */
module PeopleActions {
  import opened Outcomes
  import opened Entities

  /** The first account whose display name is `email`. */
  function FirstNamed(email: string, accounts: seq<Account>): (r: Option<nat>)
    ensures r.Some? ==> r.value < |accounts| && accounts[r.value].displayName == email
    ensures r.Some? ==> forall j :: 0 <= j < r.value ==> accounts[j].displayName != email
    ensures r.None? ==> forall j :: 0 <= j < |accounts| ==> accounts[j].displayName != email
  {
    if accounts == [] then None
    else if accounts[0].displayName == email then Some(0)
    else match FirstNamed(email, accounts[1..])
      case None => None
      case Some(k) => Some(k + 1)
  }

  /** `findUser(email, accounts)`: the first account named `email`, or `undefined`. */
  method FindUser(email: string, accounts: seq<Account>) returns (r: Option<Account>)
    ensures r.Some? <==> FirstNamed(email, accounts).Some?
    ensures r.Some? ==> r.value == accounts[FirstNamed(email, accounts).value]
  {
    var i := 0;
    while i < |accounts|
      invariant 0 <= i <= |accounts|
      invariant forall j :: 0 <= j < i ==> accounts[j].displayName != email
    {
      if accounts[i].displayName == email {
        FirstNamedIsFirst(email, accounts, i);
        return Some(accounts[i]);
      }
      i := i + 1;
    }
    return None;
  }

  /** The first index holding the name is the one `FirstNamed` finds. */
  lemma FirstNamedIsFirst(email: string, accounts: seq<Account>, i: nat)
    requires i < |accounts| && accounts[i].displayName == email
    requires forall j :: 0 <= j < i ==> accounts[j].displayName != email
    ensures FirstNamed(email, accounts) == Some(i)
  {
    var r := FirstNamed(email, accounts);
    assert r.Some?;
  }

  /** One invitation: the address and the portal role. */
  datatype Invite = Invite(email: string, role: string)

  /** The invite request body. */
  datatype InviteBody = InviteBody(invitations: seq<Invite>)

  const InvitedUserMissing := "Could not find invited user in response"

  /**
   * `inviteUser`: returns the account already named `email`, sending nothing;
   * otherwise sends one invitation for `email` with `role` and returns the
   * account of that name in the reply, halting when there is none. `sent` is
   * the invite request body, when one was sent.
   */
  method InviteUser(email: string, role: string, listUsers: Result<seq<Account>>,
                    inviteUser: InviteBody -> Result<seq<Account>>)
    returns (r: Result<Account>, sent: Option<InviteBody>)
    ensures r.Ok? ==> r.value.displayName == email
    ensures listUsers.Err? ==> r == Err(listUsers.error) && sent.None?
    ensures listUsers.Ok? && FirstNamed(email, listUsers.value).Some? ==>
      r == Ok(listUsers.value[FirstNamed(email, listUsers.value).value]) && sent.None?
    ensures listUsers.Ok? && FirstNamed(email, listUsers.value).None? ==>
      sent == Some(InviteBody([Invite(email, role)])) &&
      var reply := inviteUser(sent.value);
      (reply.Err? ==> r == Err(reply.error)) &&
      (reply.Ok? && FirstNamed(email, reply.value).None? ==> r == Err(Halted(InvitedUserMissing))) &&
      (reply.Ok? && FirstNamed(email, reply.value).Some? ==> r == Ok(reply.value[FirstNamed(email, reply.value).value]))
  {
    if listUsers.Err? {
      return Err(listUsers.error), None;
    }
    var invitedUser := FindUser(email, listUsers.value);
    if invitedUser.Some? {
      return Ok(invitedUser.value), None;
    }
    var body := InviteBody([Invite(email, role)]);
    sent := Some(body);
    var accounts := inviteUser(body);
    if accounts.Err? {
      return Err(accounts.error), sent;
    }
    invitedUser := FindUser(email, accounts.value);
    if invitedUser.Some? {
      return Ok(invitedUser.value), sent;
    }
    return Err(Halted(InvitedUserMissing)), sent;
  }
}
