/**
 * The subscription toggle of SubscriptionAPIView.post once the course has
 * been found: delete every matching row if there is one, insert one
 * otherwise, and answer which of the two happened.
 */
module Subscriptions {
  import opened Orm

  const ENABLED: string := "Подписка включена"
  const DISABLED: string := "Подписка отключена"

  /** The table after a toggle and the message the view answers with. */
  datatype Toggled = Toggled(rows: seq<Subscription>, message: string)

  /**
   * Subscribed: no row for the pair is left and the answer is "disabled".
   * Not subscribed: the pair ends up with exactly one row and the answer is
   * "enabled".
   */
  function Toggle(rows: seq<Subscription>, s: Subscription): (t: Toggled)
    ensures s in rows ==> s !in t.rows && t.message == DISABLED
    ensures s !in rows ==> multiset(t.rows)[s] == 1 && t.message == ENABLED
  {
    if s in rows then Toggled(Without(rows, s), DISABLED)
    else Toggled(rows + [s], ENABLED)
  }

  /** Subscribed: every row for the pair goes, and the answer is "disabled". */
  lemma ToggleOff(rows: seq<Subscription>, s: Subscription)
    requires s in rows
    ensures s !in Toggle(rows, s).rows
    ensures |Toggle(rows, s).rows| == |rows| - multiset(rows)[s]
    ensures Toggle(rows, s).message == DISABLED
  {
    var r := Without(rows, s);
    assert multiset(r)[s] == 0;
    assert multiset(rows) == multiset(r) + multiset{s}[s := multiset(rows)[s]];
  }

  /** Not subscribed: exactly one row for the pair is added, and the answer is "enabled". */
  lemma ToggleOn(rows: seq<Subscription>, s: Subscription)
    requires s !in rows
    ensures Toggle(rows, s).rows == rows + [s]
    ensures multiset(Toggle(rows, s).rows)[s] == 1
    ensures Toggle(rows, s).message == ENABLED
  {
  }

  /** Rows of other (user, course) pairs are neither removed nor reordered, and none is added. */
  lemma ToggleKeepsOtherRows(rows: seq<Subscription>, s: Subscription)
    ensures Without(Toggle(rows, s).rows, s) == Without(rows, s)
  {
    if s in rows {
      WithoutIdempotent(rows, s);
    } else {
      WithoutAppended(rows, s);
    }
  }

  /** In particular, every other pair keeps the number of rows it had. */
  lemma ToggleKeepsOtherCounts(rows: seq<Subscription>, s: Subscription, x: Subscription)
    requires x != s
    ensures multiset(Toggle(rows, s).rows)[x] == multiset(rows)[x]
  {
  }

  /** Whatever the table held, a toggle leaves at most one row for the pair. */
  lemma ToggleLeavesAtMostOne(rows: seq<Subscription>, s: Subscription)
    ensures multiset(Toggle(rows, s).rows)[s] <= 1
  {
  }

  /** Two toggles in a row restore whether the pair is subscribed, and answer differently. */
  lemma ToggleTwiceRestoresState(rows: seq<Subscription>, s: Subscription)
    ensures var once := Toggle(rows, s);
      var twice := Toggle(once.rows, s);
      (s in twice.rows <==> s in rows) && once.message != twice.message
  {
  }

  /**
   * From a table with at most one row for the pair, two toggles give back
   * the same rows; when the pair was not subscribed, in the same order too.
   */
  lemma {:induction false} ToggleTwiceRestoresTable(rows: seq<Subscription>, s: Subscription)
    requires multiset(rows)[s] <= 1
    ensures multiset(Toggle(Toggle(rows, s).rows, s).rows) == multiset(rows)
    ensures s !in rows ==> Toggle(Toggle(rows, s).rows, s).rows == rows
  {
    var once := Toggle(rows, s);
    if s in rows {
      ToggleOff(rows, s);
      assert Toggle(once.rows, s).rows == once.rows + [s];
      assert multiset(once.rows + [s]) == multiset(once.rows) + multiset{s};
      assert multiset(rows) == multiset(once.rows) + multiset{s};
    } else {
      ToggleOn(rows, s);
      assert s in once.rows;
      WithoutAppended(rows, s);
      WithoutAbsent(rows, s);
    }
  }
}
