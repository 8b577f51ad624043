/** Roles, risk levels, and the two policies that decide who may let an action run. */
module Domain {

  datatype Option<+T> = None | Some(value: T)

  datatype Role = Viewer | Operator | Manager | Admin | Owner

  datatype Risk = Low | Medium | High | Critical

  datatype Mode = Execute | RequireApproval | RecommendOnly

  /** An authenticated caller: the user, the role of its membership, and the tenant it is in. */
  datatype Actor = Actor(user: string, role: Role, tenant: string)

  function RoleRank(role: Role): nat {
    match role
    case Viewer => 10
    case Operator => 20
    case Manager => 30
    case Admin => 40
    case Owner => 50
  }

  predicate CanRoleAccess(user: Role, minimum: Role) {
    RoleRank(user) >= RoleRank(minimum)
  }

  /** Who reaches a level, role by role. */
  predicate AtLeast(role: Role, minimum: Role) {
    match minimum
    case Viewer => true
    case Operator => role in {Operator, Manager, Admin, Owner}
    case Manager => role in {Manager, Admin, Owner}
    case Admin => role in {Admin, Owner}
    case Owner => role == Owner
  }

  /** The ranks put the roles in that order. */
  lemma RolesInOrder(role: Role, minimum: Role)
    ensures CanRoleAccess(role, minimum) <==> AtLeast(role, minimum)
  {
  }

  function MinApproverRole(risk: Risk): Role {
    match risk
    case Low => Operator
    case Medium => Manager
    case High => Admin
    case Critical => Owner
  }

  function EvaluatePolicy(risk: Risk, autoExecuteMediumRisk: bool): Mode {
    match risk
    case Low => Execute
    case Medium => if autoExecuteMediumRisk then Execute else RequireApproval
    case High => RequireApproval
    case Critical => RecommendOnly
  }
}
