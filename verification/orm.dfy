/**
 * The tables the views of the materials app read and write, reduced to
 * in-memory values: a course or lesson row, a subscription row, the
 * primary-key lookup behind get_object_or_404, and the set-level meaning of
 * the queryset operations the views call (create, exists, delete).
 */
module Orm {

  type UserId = nat

  /** The requesting user as the views see it: its key and its staff flag. */
  datatype User = User(id: UserId, isStaff: bool)

  datatype Option<T> = None | Some(value: T)

  /** Validated serializer data other than the owner, kept opaque. */
  type Fields = map<string, string>

  /** A stored course or lesson: primary key, nullable owner, other columns. */
  datatype Row = Row(pk: nat, owner: Option<UserId>, fields: Fields)

  /** What serializer.save() is handed: possibly an owner, and the other columns. */
  datatype Payload = Payload(owner: Option<UserId>, fields: Fields)

  /** A subscription row: the user and the primary key of the course. */
  datatype Subscription = Subscription(user: UserId, course: nat)

  /** Keys grow along the table, so no two rows share one. */
  predicate PksIncreasing(rows: seq<Row>)
  {
    forall i, j :: 0 <= i < j < |rows| ==> rows[i].pk < rows[j].pk
  }

  predicate PksBelow(rows: seq<Row>, bound: nat)
  {
    forall i :: 0 <= i < |rows| ==> rows[i].pk < bound
  }

  /**
   * get_object_or_404(Model, pk=pk): the row whose primary key is pk, or
   * None where the view answers not-found.
   */
  function FindByPk(rows: seq<Row>, pk: nat): (r: Option<Row>)
    ensures r.Some? ==> r.value in rows && r.value.pk == pk
    ensures r.None? <==> forall i :: 0 <= i < |rows| ==> rows[i].pk != pk
  {
    if rows == [] then None
    else if rows[0].pk == pk then Some(rows[0])
    else FindByPk(rows[1..], pk)
  }

  /** The table left after deleting every row equal to s (queryset.delete()). */
  function Without(rows: seq<Subscription>, s: Subscription): (r: seq<Subscription>)
    ensures forall x :: multiset(r)[x] == if x == s then 0 else multiset(rows)[x]
  {
    if rows == [] then []
    else
      assert rows == [rows[0]] + rows[1..];
      (if rows[0] == s then [] else [rows[0]]) + Without(rows[1..], s)
  }

  /** Deleting s from a table that ends in s is deleting it from the rest. */
  lemma {:induction false} WithoutAppended(rows: seq<Subscription>, s: Subscription)
    ensures Without(rows + [s], s) == Without(rows, s)
  {
    if rows == [] {
      assert [] + [s] == [s];
    } else {
      assert (rows + [s])[1..] == rows[1..] + [s];
      WithoutAppended(rows[1..], s);
    }
  }

  /** Deleting a row that is not there leaves the table as it was, in order. */
  lemma {:induction false} WithoutAbsent(rows: seq<Subscription>, s: Subscription)
    requires s !in rows
    ensures Without(rows, s) == rows
  {
    if rows != [] {
      WithoutAbsent(rows[1..], s);
      assert rows == [rows[0]] + rows[1..];
    }
  }

  /** Deleting twice deletes no more than deleting once. */
  lemma {:induction false} WithoutIdempotent(rows: seq<Subscription>, s: Subscription)
    ensures Without(Without(rows, s), s) == Without(rows, s)
  {
    assert multiset(Without(rows, s))[s] == 0;
    WithoutAbsent(Without(rows, s), s);
  }

  /** A course or lesson table: its rows and the next primary key to hand out. */
  class Table {
    var rows: seq<Row>
    var nextPk: nat

    ghost predicate Valid()
      reads this
    {
      PksIncreasing(rows) && PksBelow(rows, nextPk)
    }

    constructor ()
      ensures Valid() && rows == []
    {
      rows := [];
      nextPk := 1;
    }

    /** Model.objects.create / serializer.save() for a new row. */
    method Create(owner: Option<UserId>, fields: Fields) returns (row: Row)
      requires Valid()
      modifies this
      ensures Valid()
      ensures row == Row(old(nextPk), owner, fields)
      ensures rows == old(rows) + [row]
      ensures FindByPk(old(rows), row.pk).None?
    {
      row := Row(nextPk, owner, fields);
      rows := rows + [row];
      nextPk := nextPk + 1;
    }
  }

  /** The subscription table; rows are compared on (user, course) alone. */
  class SubscriptionTable {
    var rows: seq<Subscription>

    constructor ()
      ensures rows == []
    {
      rows := [];
    }

    /** Subscription.objects.filter(user=…, course=…).delete() */
    method Delete(s: Subscription)
      modifies this
      ensures rows == Without(old(rows), s)
    {
      rows := Without(rows, s);
    }

    /** Subscription.objects.create(user=…, course=…) */
    method Create(s: Subscription)
      modifies this
      ensures rows == old(rows) + [s]
    {
      rows := rows + [s];
    }
  }
}
