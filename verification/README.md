# Materials views: permissions, visibility, ownership and the subscription toggle

This project models the controller layer of the `materials` app of a
course-management API (`materials/views.py`): the `CourseViewSet`, the five
`Lesson*APIView` endpoints and `SubscriptionAPIView`. The database is reduced
to in-memory tables. Each table is a sequence of rows in insertion order;
course and lesson keys grow along the table (`Orm.Table.Valid`).

- `orm.dfy` (module `Orm`): course and lesson rows (`Row`: primary key,
  nullable owner, other columns), subscription rows (`Subscription`: user and
  course key), the lookup behind `get_object_or_404` (`FindByPk`), and the
  set-level meaning of the queryset calls the views make (`Table.Create`,
  `SubscriptionTable.Delete`, `SubscriptionTable.Create`; the `.exists()` test
  is membership of the pair in the table).
- `permissions.dfy` (module `Permissions`): DRF permission classes composed
  with `&`, `|` and `~` over three checks (authenticated, moderator, owner).
  A view lets a request through when every permission class in its list
  grants. `CoursePermissionClasses` is the `if`/`elif` chain of
  `CourseViewSet.get_permissions`.
- `visibility.dfy` (module `Visibility`): the filter shared by every
  `get_queryset`. A staff user sees the whole table; anyone else sees only
  the rows they own.
- `subscriptions.dfy` (module `Subscriptions`): the toggle of
  `SubscriptionAPIView.post` as a function over the subscription table, with
  its properties.
- `views.dfy` (module `Views`): the views themselves. `CourseViewSet`,
  `LessonCreateAPIView` and `SubscriptionAPIView` are classes, because they
  hold request state and write tables in place. The other four lesson views
  hold only a constant permission list and a queryset, so each is a constant
  and a function.

The lesson retrieve, update and destroy endpoints filter the *course* table
(`materials/views.py:79`, `:91`, `:103`), not the lesson table. The model
keeps that behaviour as written. `Views.LessonDetailViewsReachCourses`
shows that a non-staff user reaches exactly the keys of the courses they
own, whatever the lesson table holds. `Views.LessonRetrieveMissesOwnLesson`
draws the consequence: a user who owns a lesson but no course sees the lesson
in the list, and the retrieve endpoint does not find it.

The moderator and owner checks come from `materials/permissions.py`, which is
not part of this model. Each check is a boolean fact of the request
(`Permissions.Facts`). Likewise, the notification task is not part of this
model: `send_email.delay` is an entry appended to the view's outbox.

## Model

| member | source | states |
|---|---|---|
| `Orm.FindByPk` | materials/views.py:115 | the lookup returns a row of the table with the requested key, and answers not-found exactly when no row has that key |
| `Orm.Without` | materials/views.py:116-119 | deleting the filtered subscriptions removes every row for the pair and keeps every other row with its multiplicity |
| `Orm.Table.Create` | materials/views.py:18-21 | saving a new row appends it with a fresh primary key above every existing one and the given owner and columns |
| `Orm.SubscriptionTable.Delete` | materials/views.py:119 | the table afterwards is the old table without the pair's rows |
| `Orm.SubscriptionTable.Create` | materials/views.py:123 | the table afterwards is the old table with one row for the pair appended |
| `Permissions.AllGrant` | materials/views.py:23-33 | a list of permission classes lets a request through exactly when every class in it grants |
| `Permissions.CoursePermissionClasses` | materials/views.py:23-33 | each of the five named actions gets a single permission class whose first operand is `IsAuthenticated`; any other action keeps the previous classes |
| `Permissions.RulesGrant` | materials/views.py:25-31 | `IsAuthenticated & ~IsModerator`, `IsAuthenticated & (IsModerator \| IsOwner)` and `IsAuthenticated & IsOwner` grant exactly the matching formula over the three facts |
| `Permissions.CoursePolicy` | materials/views.py:23-33 | create is allowed iff authenticated and not a moderator; retrieve, update and list iff authenticated and moderator-or-owner; destroy iff authenticated and owner |
| `Permissions.OtherActionsKeepDefaults` | materials/views.py:23-33 | for any other action (for example `partial_update`) the view's previous permission classes alone decide whether the request is let through |
| `Permissions.NamedActionsNeedAuthentication` | materials/views.py:24-31 | an unauthenticated request is denied every one of the five named actions |
| `Permissions.ModeratorRights` | materials/views.py:24-31 | an authenticated moderator who does not own the course is denied create and destroy but allowed retrieve, update and list |
| `Permissions.OwnerRights` | materials/views.py:24-31 | an authenticated owner who is not a moderator is allowed all five named actions |
| `Permissions.DestroyIsOwnerOnly` | materials/views.py:30-31 | destroy is allowed iff authenticated and owner; the moderator flag never changes the answer |
| `Visibility.OwnedBy` | materials/views.py:37 | `filter(owner=user)` keeps every row the user owns, with its multiplicity, and no other row |
| `Visibility.VisibleRows` | materials/views.py:35-40 | a non-staff user gets exactly the rows they own; a staff user gets the whole table; the result is always a sub-multiset of the table |
| `Visibility.NonStaffSeesNoForeignRow` | materials/views.py:36-37 | no row a non-staff user is shown is owned by anyone else or by nobody |
| `Visibility.OwnRowsAlwaysVisible` | materials/views.py:35-40 | staff or not, every row the user owns is in their queryset |
| `Subscriptions.Toggle` | materials/views.py:118-124 | a subscribed pair is left with no row and the answer "Подписка отключена"; an unsubscribed pair is left with exactly one row and the answer "Подписка включена" |
| `Subscriptions.ToggleOff` | materials/views.py:118-120 | when the pair is subscribed, every row for it is deleted (the table shrinks by their number) and the message is "Подписка отключена" |
| `Subscriptions.ToggleOn` | materials/views.py:122-124 | when the pair is not subscribed, exactly one row for it is appended and the message is "Подписка включена" |
| `Subscriptions.ToggleKeepsOtherRows` | materials/views.py:116-123 | leaving out the pair's rows, the table after a toggle is the table before it: no other row is added, removed or reordered |
| `Subscriptions.ToggleKeepsOtherCounts` | materials/views.py:116-123 | every other (user, course) pair keeps its number of rows |
| `Subscriptions.ToggleLeavesAtMostOne` | materials/views.py:116-123 | after a toggle the table holds at most one row for the pair |
| `Subscriptions.ToggleTwiceRestoresState` | materials/views.py:118-124 | two toggles restore whether the pair is subscribed, and the two messages differ |
| `Subscriptions.ToggleTwiceRestoresTable` | materials/views.py:118-124 | from at most one row for the pair, two toggles restore the table's rows; when the pair was not subscribed, the exact sequence |
| `Views.CourseViewSet.PerformCreate` | materials/views.py:18-21 | the created course is owned by the requester whatever owner the payload carried, keeps the payload's columns, and is the one row appended to the course table |
| `Views.CourseViewSet.GetPermissions` | materials/views.py:23-33 | the permission classes become the ones chosen for the action from the previous ones, and those are what is returned |
| `Views.CourseViewSet.GetQueryset` | materials/views.py:35-40 | a non-staff requester gets exactly their own courses; a staff requester gets the whole course table |
| `Views.CourseViewSet.Update` | materials/views.py:42-46 | an unknown course gives not-found with nothing queued; a known one queues one notification with its id, then hands the request on to the generic update, in that order |
| `Views.UpdateLookupIgnoresQueryset` | materials/views.py:35-44 | the lookup that decides whether the notification is queued also finds a course the non-staff requester's queryset leaves out |
| `Views.LessonPermissionsMatchCourseActions` | materials/views.py:52-99 | each lesson endpoint's permission list grants exactly what CourseViewSet grants for the same action |
| `Views.LessonModeratorRights` | materials/views.py:52-99 | a non-owner moderator is denied lesson create and destroy but allowed list, retrieve and update |
| `Views.LessonCreateAPIView.PerformCreate` | materials/views.py:54-57 | the created lesson is owned by the requester whatever owner the payload carried, keeps the payload's columns, and is the one row appended to the lesson table |
| `Views.LessonListQueryset` | materials/views.py:65-70 | over the lesson table: a non-staff user gets exactly their own lessons, a staff user all lessons |
| `Views.LessonRetrieveQueryset` | materials/views.py:77-82 | over the course table, as written: a non-staff user gets exactly their own courses, a staff user all courses |
| `Views.LessonUpdateQueryset` | materials/views.py:89-94 | over the course table, as written: a non-staff user gets exactly their own courses, a staff user all courses |
| `Views.LessonDestroyQueryset` | materials/views.py:101-106 | over the course table, as written: a non-staff user gets exactly their own courses, a staff user all courses |
| `Views.LessonDetailViewsReachCourses` | materials/views.py:77-106 | the lesson retrieve, update and destroy endpoints find key k for a non-staff user exactly when a course that user owns has key k (for staff, when any course has it), whatever the lesson table holds |
| `Views.LessonRetrieveMissesOwnLesson` | materials/views.py:65-82 | for every non-staff user who owns a lesson but no course, the lesson is in their lesson list and the retrieve endpoint finds no row with its key |
| `Views.SubscriptionAPIView.Post` | materials/views.py:112-126 | a missing or unknown course gives not-found and leaves the table unchanged; for a found course an anonymous requester gets a failure with the table unchanged; otherwise the table and the message are those of the toggle for (requester, course) |

## Left out

- HTTP routing, request and response objects: a reply is modelled only by its message value (`Views.Reply`) or outcome (`Views.UpdateReply`).
- The check DRF performs on the chosen permission classes, including its split between request-level and object-level checks: this is library code. `Permissions.AllGrant` states only "every class must grant".
- What `IsModerator` and `IsOwner` inspect: `materials/permissions.py` is not part of this model. Both are boolean facts of the request.
- The double `save()` in both `perform_create` methods (`materials/views.py:19-21`, `:55-57`): the model stores one row whose owner is already the requester. The row with the payload's owner, which exists only between the two saves, is not modelled.
- What `super().update(request)` persists, and the missing `pk` argument in that call (`materials/views.py:46`): the generic update is recorded only as the `UpdateDelegated` event, placed after the notification.
- The Celery task `send_email`: it is asynchronous and fire-and-forget. Queuing it is an `EmailQueued` entry in `CourseViewSet.outbox`.
- `LessonPaginator` and the serializers (`materials/paginators.py`, `materials/serliazers.py`) are not part of this model. Payload columns are an opaque `Fields` map, and a list is the unpaginated queryset.
- Primary keys of subscription rows: a subscription row is its (user, course) pair alone. So "two toggles restore the table" is stated up to row order when the pair was subscribed: the re-inserted row goes to the end.
- `request.data.get('course')` is an optional natural number. A body without `course` finds no course and gives not-found. A value that is not a valid key (which Django rejects with a different error) is not modelled.
- `self.action` is a string; DRF's `None` action for requests outside the router's actions is one more "other action" that keeps the defaults.
- `Permissions.Facts` is not derived from the requesting `User`: the three checks are facts of the request, given separately. The model does not link `authenticated` to whether a user is present.
- `Views.CourseViewSet` and `Views.LessonCreateAPIView` take a signed-in requester. Every rule they name requires authentication (`Permissions.NamedActionsNeedAuthentication`). For any other action the project's default permission classes decide, and those defaults are not part of this model. So an anonymous requester reaching `get_queryset` or `perform_create` is not modelled.
- `Views.SubscriptionAPIView.Post`: for an anonymous requester the model answers with one failure value. The error Django raises when filtering on an anonymous user is not modelled beyond "no toggle happens".
- `Views.CourseViewSet.Update`: the answer of the generic update (which can be a 404 from its own filtered lookup, a 403 or a 400) is not modelled; `UpdateHandedOn` only says that the request was handed on.
- Two concurrent toggles can both insert a row for the same pair. This is concurrency, and the code has no locking to model; each call is one atomic step here.
