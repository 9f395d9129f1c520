/**
 * The views of the materials app: CourseViewSet, the five Lesson*APIView
 * endpoints and SubscriptionAPIView, over the in-memory tables of Orm.
 * A view that keeps per-request state (the chosen permission classes, the
 * queued notifications, the tables it writes) is a class; the Lesson views
 * whose only content is a constant permission list and a queryset are a
 * constant and a function.
 */
module Views {
  import opened Orm
  import opened Permissions
  import opened Visibility
  import opened Subscriptions

  /** What CourseViewSet.update hands on, in order. */
  datatype Event =
    | EmailQueued(courseId: nat)  // send_email.delay(course_id=…)
    | UpdateDelegated             // super().update(request)

  /**
   * The outcome of CourseViewSet.update: the 404 of its own lookup, or the
   * request handed on to the generic update, whose own answer is not modelled.
   */
  datatype UpdateReply = UpdateNotFound | UpdateHandedOn

  /**
   * The body of the subscription reply, the 404, or the failure of the
   * subscription filter when the requester is anonymous.
   */
  datatype Reply = NotFound | AnonymousFailure | Message(text: string)

  class CourseViewSet {
    const requestUser: User
    const courses: Table
    const action: string
    var permissionClasses: seq<Permission>
    var outbox: seq<Event>

    constructor (user: User, courses: Table, action: string, defaults: seq<Permission>)
      ensures requestUser == user && this.courses == courses && this.action == action
      ensures permissionClasses == defaults && outbox == []
    {
      requestUser := user;
      this.courses := courses;
      this.action := action;
      permissionClasses := defaults;
      outbox := [];
    }

    /** perform_create: the stored course is owned by the requester, whatever the payload said. */
    method PerformCreate(payload: Payload) returns (created: Row)
      requires courses.Valid()
      modifies courses
      ensures courses.Valid()
      ensures created.owner == Some(requestUser.id)
      ensures created.fields == payload.fields
      ensures courses.rows == old(courses.rows) + [created]
      ensures FindByPk(old(courses.rows), created.pk).None?
    {
      created := courses.Create(Some(requestUser.id), payload.fields);
    }

    /** get_permissions: pick the permission classes for the action, then hand them out. */
    method GetPermissions() returns (perms: seq<Permission>)
      modifies this`permissionClasses
      ensures permissionClasses == CoursePermissionClasses(action, old(permissionClasses))
      ensures perms == permissionClasses
    {
      if action == "create" {
        permissionClasses := [AUTH_NOT_MODERATOR];
      } else if action in ["retrieve", "update", "list"] {
        permissionClasses := [AUTH_MODERATOR_OR_OWNER];
      } else if action == "destroy" {
        permissionClasses := [AUTH_OWNER];
      }
      perms := permissionClasses;
    }

    /** get_queryset */
    function GetQueryset(): (r: seq<Row>)
      reads this, courses
      ensures !requestUser.isStaff ==>
        forall x :: x in r <==> x in courses.rows && x.owner == Some(requestUser.id)
      ensures requestUser.isStaff ==> r == courses.rows
    {
      VisibleRows(requestUser, courses.rows)
    }

    /**
     * update: look the course up (404 if absent, and nothing is queued),
     * queue one notification for it, and only then delegate the update.
     */
    method Update(pk: nat) returns (reply: UpdateReply)
      requires courses.Valid()
      modifies this`outbox
      ensures FindByPk(courses.rows, pk).None? ==> reply == UpdateNotFound && outbox == old(outbox)
      ensures FindByPk(courses.rows, pk).Some? ==>
        reply == UpdateHandedOn && outbox == old(outbox) + [EmailQueued(pk), UpdateDelegated]
    {
      var course := FindByPk(courses.rows, pk);
      if course.None? {
        return UpdateNotFound;
      }
      outbox := outbox + [EmailQueued(course.value.pk)];
      outbox := outbox + [UpdateDelegated];
      reply := UpdateHandedOn;
    }
  }

  /** LessonCreateAPIView.permission_classes */
  const LESSON_CREATE_PERMISSIONS: seq<Permission> := [AUTH_NOT_MODERATOR]
  /** LessonListAPIView.permission_classes */
  const LESSON_LIST_PERMISSIONS: seq<Permission> := [AUTH_MODERATOR_OR_OWNER]
  /** LessonRetrieveAPIView.permission_classes */
  const LESSON_RETRIEVE_PERMISSIONS: seq<Permission> := [AUTH_MODERATOR_OR_OWNER]
  /** LessonUpdateAPIView.permission_classes */
  const LESSON_UPDATE_PERMISSIONS: seq<Permission> := [AUTH_MODERATOR_OR_OWNER]
  /** LessonDestroyAPIView.permission_classes */
  const LESSON_DESTROY_PERMISSIONS: seq<Permission> := [AUTH_OWNER]

  /** Each Lesson endpoint applies the rule CourseViewSet applies to the same action. */
  lemma LessonPermissionsMatchCourseActions(defaults: seq<Permission>, f: Facts)
    ensures AllGrant(LESSON_CREATE_PERMISSIONS, f) == CourseAllows("create", defaults, f)
    ensures AllGrant(LESSON_LIST_PERMISSIONS, f) == CourseAllows("list", defaults, f)
    ensures AllGrant(LESSON_RETRIEVE_PERMISSIONS, f) == CourseAllows("retrieve", defaults, f)
    ensures AllGrant(LESSON_UPDATE_PERMISSIONS, f) == CourseAllows("update", defaults, f)
    ensures AllGrant(LESSON_DESTROY_PERMISSIONS, f) == CourseAllows("destroy", defaults, f)
  {
  }

  /** A moderator who does not own the lesson may list, read and update it, not create or delete. */
  lemma LessonModeratorRights(f: Facts)
    requires f.authenticated && f.moderator && !f.owner
    ensures !AllGrant(LESSON_CREATE_PERMISSIONS, f) && !AllGrant(LESSON_DESTROY_PERMISSIONS, f)
    ensures AllGrant(LESSON_LIST_PERMISSIONS, f) && AllGrant(LESSON_RETRIEVE_PERMISSIONS, f)
    ensures AllGrant(LESSON_UPDATE_PERMISSIONS, f)
  {
    RulesGrant(f);
    SingleGrant(AUTH_NOT_MODERATOR, f);
    SingleGrant(AUTH_MODERATOR_OR_OWNER, f);
    SingleGrant(AUTH_OWNER, f);
  }

  class LessonCreateAPIView {
    const requestUser: User
    const lessons: Table

    constructor (user: User, lessons: Table)
      ensures requestUser == user && this.lessons == lessons
    {
      requestUser := user;
      this.lessons := lessons;
    }

    /** perform_create: the stored lesson is owned by the requester, whatever the payload said. */
    method PerformCreate(payload: Payload) returns (created: Row)
      requires lessons.Valid()
      modifies lessons
      ensures lessons.Valid()
      ensures created.owner == Some(requestUser.id)
      ensures created.fields == payload.fields
      ensures lessons.rows == old(lessons.rows) + [created]
      ensures FindByPk(old(lessons.rows), created.pk).None?
    {
      created := lessons.Create(Some(requestUser.id), payload.fields);
    }
  }

  /**
   * LessonListAPIView.get_queryset: filters the lesson table. It takes both
   * tables, as the three detail querysets below do, so that which table each
   * view reads shows in its body.
   */
  function LessonListQueryset(user: User, courses: seq<Row>, lessons: seq<Row>): (r: seq<Row>)
    ensures !user.isStaff ==> forall x :: x in r <==> x in lessons && x.owner == Some(user.id)
    ensures user.isStaff ==> r == lessons
  {
    VisibleRows(user, lessons)
  }

  /** LessonRetrieveAPIView.get_queryset: filters the course table, as written. */
  function LessonRetrieveQueryset(user: User, courses: seq<Row>, lessons: seq<Row>): (r: seq<Row>)
    ensures !user.isStaff ==> forall x :: x in r <==> x in courses && x.owner == Some(user.id)
    ensures user.isStaff ==> r == courses
  {
    VisibleRows(user, courses)
  }

  /** LessonUpdateAPIView.get_queryset: filters the course table, as written. */
  function LessonUpdateQueryset(user: User, courses: seq<Row>, lessons: seq<Row>): (r: seq<Row>)
    ensures !user.isStaff ==> forall x :: x in r <==> x in courses && x.owner == Some(user.id)
    ensures user.isStaff ==> r == courses
  {
    VisibleRows(user, courses)
  }

  /** LessonDestroyAPIView.get_queryset: filters the course table, as written. */
  function LessonDestroyQueryset(user: User, courses: seq<Row>, lessons: seq<Row>): (r: seq<Row>)
    ensures !user.isStaff ==> forall x :: x in r <==> x in courses && x.owner == Some(user.id)
    ensures user.isStaff ==> r == courses
  {
    VisibleRows(user, courses)
  }

  /**
   * The retrieve, update and destroy endpoints for lessons look keys up in
   * the course table: a non-staff user reaches key k exactly when a course
   * they own has that key, whatever the lesson table holds; a staff user
   * reaches every course key.
   */
  lemma LessonDetailViewsReachCourses(user: User, courses: seq<Row>, lessons: seq<Row>, k: nat)
    ensures !user.isStaff ==>
      (FindByPk(LessonRetrieveQueryset(user, courses, lessons), k).Some? <==>
       exists c :: c in courses && c.pk == k && c.owner == Some(user.id))
    ensures !user.isStaff ==>
      (FindByPk(LessonUpdateQueryset(user, courses, lessons), k).Some? <==>
       exists c :: c in courses && c.pk == k && c.owner == Some(user.id))
    ensures !user.isStaff ==>
      (FindByPk(LessonDestroyQueryset(user, courses, lessons), k).Some? <==>
       exists c :: c in courses && c.pk == k && c.owner == Some(user.id))
    ensures user.isStaff ==>
      (FindByPk(LessonRetrieveQueryset(user, courses, lessons), k).Some? <==>
       exists c :: c in courses && c.pk == k)
    ensures user.isStaff ==>
      (FindByPk(LessonUpdateQueryset(user, courses, lessons), k).Some? <==>
       exists c :: c in courses && c.pk == k)
    ensures user.isStaff ==>
      (FindByPk(LessonDestroyQueryset(user, courses, lessons), k).Some? <==>
       exists c :: c in courses && c.pk == k)
  {
  }

  /**
   * So a non-staff user who owns a lesson but no course sees that lesson in
   * the lesson list, while the retrieve endpoint finds no row for its key.
   */
  lemma LessonRetrieveMissesOwnLesson(user: User, courses: seq<Row>, lessons: seq<Row>, lesson: Row)
    requires !user.isStaff
    requires lesson in lessons && lesson.owner == Some(user.id)
    requires forall c :: c in courses ==> c.owner != Some(user.id)
    ensures lesson in LessonListQueryset(user, courses, lessons)
    ensures FindByPk(LessonRetrieveQueryset(user, courses, lessons), lesson.pk).None?
  {
  }

  /**
   * CourseViewSet.update queues its notification on the unfiltered lookup:
   * a course outside the requester's queryset still passes that lookup.
   */
  lemma UpdateLookupIgnoresQueryset(user: User, courses: seq<Row>, c: Row)
    requires !user.isStaff && c in courses && c.owner != Some(user.id)
    ensures FindByPk(courses, c.pk).Some?
    ensures c !in VisibleRows(user, courses)
  {
  }

  /**
   * SubscriptionAPIView names no permission classes, so whether an anonymous
   * request reaches post depends on the project's defaults: the requester is
   * None for an anonymous one.
   */
  class SubscriptionAPIView {
    const requestUser: Option<User>
    const courses: Table
    const subscriptions: SubscriptionTable

    constructor (user: Option<User>, courses: Table, subscriptions: SubscriptionTable)
      ensures requestUser == user && this.courses == courses && this.subscriptions == subscriptions
    {
      requestUser := user;
      this.courses := courses;
      this.subscriptions := subscriptions;
    }

    /** Whether the request names a course that exists. */
    predicate CourseFound(courseId: Option<nat>)
      reads courses
    {
      courseId.Some? && FindByPk(courses.rows, courseId.value).Some?
    }

    /**
     * post: look the course up (404 if the body names none or an unknown
     * one, and the table stays as it was), then toggle the requester's
     * subscription to it. For an anonymous requester the lookup still
     * runs, and the filter on the user then fails with the table unchanged.
     */
    method Post(courseId: Option<nat>) returns (reply: Reply)
      requires courses.Valid()
      modifies subscriptions
      ensures !CourseFound(courseId) ==>
        reply == NotFound && subscriptions.rows == old(subscriptions.rows)
      ensures CourseFound(courseId) && requestUser.None? ==>
        reply == AnonymousFailure && subscriptions.rows == old(subscriptions.rows)
      ensures CourseFound(courseId) && requestUser.Some? ==>
        var t := Toggle(old(subscriptions.rows), Subscription(requestUser.value.id, courseId.value));
        subscriptions.rows == t.rows && reply == Message(t.message)
    {
      if courseId.None? {
        return NotFound;
      }
      var course := FindByPk(courses.rows, courseId.value);
      if course.None? {
        return NotFound;
      }
      if requestUser.None? {
        return AnonymousFailure;
      }
      var item := Subscription(requestUser.value.id, course.value.pk);
      var message;
      if item in subscriptions.rows {  // filter(user=…, course=…).exists()
        subscriptions.Delete(item);
        message := DISABLED;
      } else {
        subscriptions.Create(item);
        message := ENABLED;
      }
      reply := Message(message);
    }
  }
}
