/** The ownership rule of auth/principal.py. */
module Principal {
  import opened Wrappers

  /** The two deployment ids that legacy records fall back to. */
  datatype Deployment = Deployment(workspace: string, owner: string)

  /** A verified principal; an empty member means "no principal". */
  datatype Caller = Caller(workspace: string, member: string)

  /** The owner recorded when a session starts; empty strings mean "not recorded". */
  datatype Owner = Owner(member: string, workspace: string)

  predicate Owns(d: Deployment, owner: Owner, c: Caller) {
    if c.member == "" then
      false
    else if owner.member != "" then
      owner.member == c.member && (owner.workspace == "" || owner.workspace == c.workspace)
    else
      c.member == d.owner && c.workspace == d.workspace
  }

  // No two members ever own one session, and a recorded workspace (or the
  // legacy rule) pins the workspace too.
  lemma OwnershipIsExclusive(d: Deployment, owner: Owner, a: Caller, b: Caller)
    requires Owns(d, owner, a) && Owns(d, owner, b)
    ensures a.member == b.member
    ensures owner.workspace != "" || owner.member == "" ==> a == b
  {
  }

  // Who owns: the member recorded, in the workspace recorded if one is; where no
  // member is recorded, the deployment's owner in its workspace. Nobody else, and
  // never a caller without a member.
  lemma OwnersAre(d: Deployment, member: string, workspace: string, c: Caller)
    ensures member != "" && workspace != "" ==>
      (Owns(d, Owner(member, workspace), c) <==> c == Caller(workspace, member))
    ensures member != "" && workspace == "" ==>
      (Owns(d, Owner(member, workspace), c) <==> c.member == member)
    ensures member == "" ==>
      (Owns(d, Owner(member, workspace), c) <==> c.member != "" && c == Caller(d.workspace, d.owner))
  {
  }
}
