/**
 * Permission classes as the materials views compose them: the three checks
 * (authenticated, moderator, owner) combined with &, | and ~, a list of
 * them that must all grant, and the per-action choice CourseViewSet makes.
 * What the moderator and owner checks look at is not part of this model:
 * each is a boolean fact of the request.
 */
module Permissions {

  /** The basic checks: IsAuthenticated, IsModerator, IsOwner. */
  datatype Check = IsAuthenticated | IsModerator | IsOwner

  /** A permission class, possibly composed with &, | and ~. */
  datatype Permission =
    | Basic(check: Check)
    | And(left: Permission, right: Permission)
    | Or(left: Permission, right: Permission)
    | Not(operand: Permission)

  /** What the three basic checks answer for one request. */
  datatype Facts = Facts(authenticated: bool, moderator: bool, owner: bool)

  function Holds(c: Check, f: Facts): bool
  {
    match c
    case IsAuthenticated => f.authenticated
    case IsModerator => f.moderator
    case IsOwner => f.owner
  }

  function Grants(p: Permission, f: Facts): bool
  {
    match p
    case Basic(c) => Holds(c, f)
    case And(l, r) => Grants(l, f) && Grants(r, f)
    case Or(l, r) => Grants(l, f) || Grants(r, f)
    case Not(q) => !Grants(q, f)
  }

  /**
   * A view lets the request through when every one of its permission
   * classes grants; they are consulted in order and the first refusal denies.
   */
  function AllGrant(ps: seq<Permission>, f: Facts): (ok: bool)
    ensures ok <==> forall i :: 0 <= i < |ps| ==> Grants(ps[i], f)
  {
    if ps == [] then true
    else Grants(ps[0], f) && AllGrant(ps[1..], f)
  }

  /** IsAuthenticated & ~IsModerator */
  const AUTH_NOT_MODERATOR: Permission := And(Basic(IsAuthenticated), Not(Basic(IsModerator)))

  /** IsAuthenticated & (IsModerator | IsOwner) */
  const AUTH_MODERATOR_OR_OWNER: Permission :=
    And(Basic(IsAuthenticated), Or(Basic(IsModerator), Basic(IsOwner)))

  /** IsAuthenticated & IsOwner */
  const AUTH_OWNER: Permission := And(Basic(IsAuthenticated), Basic(IsOwner))

  /** The actions get_permissions chooses a rule for. */
  const NAMED_ACTIONS: seq<string> := ["create", "retrieve", "update", "list", "destroy"]

  /**
   * The permission classes CourseViewSet.get_permissions leaves in place for
   * an action, given the ones it had before (the view's defaults).
   */
  function CoursePermissionClasses(action: string, current: seq<Permission>): (r: seq<Permission>)
    ensures action in NAMED_ACTIONS ==>
      |r| == 1 && r[0].And? && r[0].left == Basic(IsAuthenticated)
    ensures action !in NAMED_ACTIONS ==> r == current
  {
    if action == "create" then [AUTH_NOT_MODERATOR]
    else if action in ["retrieve", "update", "list"] then [AUTH_MODERATOR_OR_OWNER]
    else if action == "destroy" then [AUTH_OWNER]
    else current
  }

  /** Whether CourseViewSet lets a request for this action through. */
  function CourseAllows(action: string, current: seq<Permission>, f: Facts): bool
  {
    AllGrant(CoursePermissionClasses(action, current), f)
  }

  /** What each of the three composed rules grants, as a formula over the facts. */
  lemma RulesGrant(f: Facts)
    ensures Grants(AUTH_NOT_MODERATOR, f) <==> f.authenticated && !f.moderator
    ensures Grants(AUTH_MODERATOR_OR_OWNER, f) <==> f.authenticated && (f.moderator || f.owner)
    ensures Grants(AUTH_OWNER, f) <==> f.authenticated && f.owner
  {
    assert Grants(Not(Basic(IsModerator)), f) == !f.moderator;
    assert Grants(Or(Basic(IsModerator), Basic(IsOwner)), f) == (f.moderator || f.owner);
  }

  /** A single permission class lets through exactly what it grants. */
  lemma SingleGrant(p: Permission, f: Facts)
    ensures AllGrant([p], f) == Grants(p, f)
  {
  }

  /** The rule each named action ends up with, as a formula over the facts. */
  lemma CoursePolicy(action: string, current: seq<Permission>, f: Facts)
    ensures action == "create" ==>
      (CourseAllows(action, current, f) <==> f.authenticated && !f.moderator)
    ensures action == "retrieve" || action == "update" || action == "list" ==>
      (CourseAllows(action, current, f) <==> f.authenticated && (f.moderator || f.owner))
    ensures action == "destroy" ==>
      (CourseAllows(action, current, f) <==> f.authenticated && f.owner)
  {
    RulesGrant(f);
    SingleGrant(AUTH_NOT_MODERATOR, f);
    SingleGrant(AUTH_MODERATOR_OR_OWNER, f);
    SingleGrant(AUTH_OWNER, f);
  }

  /**
   * Any other action (partial_update, a custom action) keeps the defaults,
   * so the defaults alone decide whether it is let through.
   */
  lemma OtherActionsKeepDefaults(action: string, current: seq<Permission>, f: Facts)
    requires action !in NAMED_ACTIONS
    ensures CourseAllows(action, current, f) == AllGrant(current, f)
  {
  }

  /** Nobody is let through unauthenticated for a named action. */
  lemma NamedActionsNeedAuthentication(action: string, current: seq<Permission>, f: Facts)
    requires action in NAMED_ACTIONS
    requires !f.authenticated
    ensures !CourseAllows(action, current, f)
  {
    CoursePolicy(action, current, f);
  }

  /**
   * A moderator who does not own the course may read, list and update it,
   * but may neither create a course nor delete it.
   */
  lemma ModeratorRights(current: seq<Permission>, f: Facts)
    requires f.authenticated && f.moderator && !f.owner
    ensures !CourseAllows("create", current, f)
    ensures !CourseAllows("destroy", current, f)
    ensures CourseAllows("retrieve", current, f)
    ensures CourseAllows("update", current, f)
    ensures CourseAllows("list", current, f)
  {
    CoursePolicy("create", current, f);
    CoursePolicy("destroy", current, f);
    CoursePolicy("retrieve", current, f);
    CoursePolicy("update", current, f);
    CoursePolicy("list", current, f);
  }

  /** An authenticated owner who is not a moderator may do every named action. */
  lemma OwnerRights(current: seq<Permission>, f: Facts)
    requires f.authenticated && !f.moderator && f.owner
    ensures forall a :: a in NAMED_ACTIONS ==>
      CourseAllows(a, current, f)
  {
    forall a | a in NAMED_ACTIONS
      ensures CourseAllows(a, current, f)
    {
      CoursePolicy(a, current, f);
    }
  }

  /** Only the owner may delete; being a moderator never helps. */
  lemma DestroyIsOwnerOnly(current: seq<Permission>, f: Facts)
    ensures CourseAllows("destroy", current, f) <==> f.authenticated && f.owner
    ensures CourseAllows("destroy", current, f.(moderator := true)) ==
            CourseAllows("destroy", current, f.(moderator := false))
  {
    CoursePolicy("destroy", current, f);
    CoursePolicy("destroy", current, f.(moderator := true));
    CoursePolicy("destroy", current, f.(moderator := false));
  }
}
