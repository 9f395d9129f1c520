/**
 * The row filter every get_queryset of the materials views applies: a
 * staff user sees the whole table, anyone else only the rows they own.
 */
module Visibility {
  import opened Orm

  /** The rows of a table whose owner is u, in table order (filter(owner=u)). */
  function OwnedBy(rows: seq<Row>, u: UserId): (r: seq<Row>)
    ensures forall x :: multiset(r)[x] == if x.owner == Some(u) then multiset(rows)[x] else 0
  {
    if rows == [] then []
    else
      assert rows == [rows[0]] + rows[1..];
      (if rows[0].owner == Some(u) then [rows[0]] else []) + OwnedBy(rows[1..], u)
  }

  /** The queryset a view hands back for one user over the table it names. */
  function VisibleRows(user: User, table: seq<Row>): (r: seq<Row>)
    ensures !user.isStaff ==> forall x :: x in r <==> x in table && x.owner == Some(user.id)
    ensures user.isStaff ==> r == table
    ensures multiset(r) <= multiset(table)
  {
    if !user.isStaff then OwnedBy(table, user.id)
    else table
  }

  /** A non-staff user never sees a row that someone else, or nobody, owns. */
  lemma NonStaffSeesNoForeignRow(user: User, table: seq<Row>, x: Row)
    requires !user.isStaff
    requires x in VisibleRows(user, table)
    ensures x.owner == Some(user.id)
  {
  }

  /** Visibility depends on the owner column alone: rows owned by the user are never hidden. */
  lemma OwnRowsAlwaysVisible(user: User, table: seq<Row>)
    ensures multiset(OwnedBy(table, user.id)) <= multiset(VisibleRows(user, table))
  {
    if user.isStaff {
      assert multiset(OwnedBy(table, user.id)) <= multiset(table);
    }
  }
}
