/** replay/authz.py: who may read a replay event. */
module ReplayAuthz {
  import opened Wrappers
  import opened Principal

  // No member means the whole workspace; an empty one matches nothing.
  datatype Scope = Scope(workspace: string, member: Option<string>)

  // A verified identity as far as scope_for reads it.
  datatype Identity = Identity(workspace: string, member: string, scopes: set<string>)

  // None means unrestricted: authentication is switched off.
  function ScopeFor(authEnabled: bool, who: Identity): Option<Scope> {
    if !authEnabled then None
    else if "*" in who.scopes || "admin" in who.scopes then Some(Scope(who.workspace, None))
    else Some(Scope(who.workspace, Some(who.member)))
  }

  // event_visible; empty strings are absent stamps.
  predicate Visible(d: Deployment, workspace: string, member: string, scope: Option<Scope>) {
    if scope.None? then true
    else
      var s := scope.value;
      var stamped := if workspace != "" then workspace else d.workspace;
      if s.workspace == "" || stamped != s.workspace then false
      else if s.member.None? then true
      else if s.member.value == "" then false
      else if member != "" then member == s.member.value
      else s.member.value == d.owner && s.workspace == d.workspace
  }

  // No event is visible to two different members, or to two workspaces.
  lemma MembersSeeDisjointEvents(d: Deployment, workspace: string, member: string, a: Scope, b: Scope)
    requires Visible(d, workspace, member, Some(a)) && Visible(d, workspace, member, Some(b))
    ensures a.workspace == b.workspace
    ensures a.member.Some? && b.member.Some? ==> a == b
  {
  }

  // A member key reads no more than an admin key of the same workspace, and an
  // admin key reads exactly its workspace.
  lemma AdminsSeeTheWorkspace(d: Deployment, workspace: string, member: string, s: Scope)
    ensures Visible(d, workspace, member, Some(s)) ==> Visible(d, workspace, member, Some(Scope(s.workspace, None)))
    ensures Visible(d, workspace, member, Some(Scope(s.workspace, None)))
            <==> s.workspace != "" && s.workspace == (if workspace != "" then workspace else d.workspace)
  {
  }

  // Replay's rule is Bridge's session rule, narrowed where only one of the two
  // stamps is present: then the event must be the deployment workspace's.
  lemma VisibleRefinesOwnership(d: Deployment, workspace: string, member: string, who: Caller)
    requires who.workspace != ""
    ensures Visible(d, workspace, member, Some(Scope(who.workspace, Some(who.member))))
            <==> Owns(d, Owner(member, workspace), who)
                 && (workspace == "" ==> who.workspace == d.workspace)
                 && (member == "" && workspace != "" ==> workspace == d.workspace)
  {
  }

  // An identity with nothing verified in it sees nothing, whatever its keys.
  lemma UnverifiedSeesNothing(d: Deployment, workspace: string, member: string, who: Identity)
    requires who.workspace == "" || (who.member == "" && "*" !in who.scopes && "admin" !in who.scopes)
    ensures !Visible(d, workspace, member, ScopeFor(true, who))
  {
  }

  // Who sees an event, in full: anybody while authentication is off; otherwise the
  // identities of the workspace it is stamped with, or of the deployment's if it
  // is not, that are admins, or the member it is stamped with, or, where it names
  // none, the owner of the deployment in the deployment's workspace.
  lemma VisibleIff(d: Deployment, workspace: string, member: string, authEnabled: bool, who: Identity)
    ensures Visible(d, workspace, member, ScopeFor(authEnabled, who)) <==>
      || !authEnabled
      || (&& who.workspace != "" && who.workspace == (if workspace != "" then workspace else d.workspace)
          && (|| "admin" in who.scopes || "*" in who.scopes
              || (&& who.member != ""
                  && if member != "" then member == who.member
                     else who.member == d.owner && who.workspace == d.workspace)))
  {
  }
}
