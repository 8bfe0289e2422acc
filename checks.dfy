/**
 * Messages pushed one per check: a check that fails (or a feature that is
 * switched on) adds its own message, in check order. The validators are
 * written as a sum of such pushes; the summary's feature list as a table
 * of (condition, message) rows.
 */
module Checks {

  /** Each message whose condition holds, in table order. */
  function Selected(table: seq<(bool, string)>): (r: seq<string>)
    ensures |r| <= |table|
  {
    if table == [] then []
    else
      var init := Selected(table[..|table| - 1]);
      var last := table[|table| - 1];
      if last.0 then init + [last.1] else init
  }

  /** A message is selected exactly when one of its table rows holds. */
  lemma {:induction false} SelectedMembers(table: seq<(bool, string)>, m: string)
    ensures m in Selected(table) <==> exists k :: 0 <= k < |table| && table[k].0 && table[k].1 == m
  {
    if table != [] {
      var init := table[..|table| - 1];
      SelectedMembers(init, m);
      if exists k :: 0 <= k < |table| && table[k].0 && table[k].1 == m {
        var k :| 0 <= k < |table| && table[k].0 && table[k].1 == m;
        if k < |table| - 1 {
          assert init[k] == table[k];
        }
      }
      if m in Selected(init) {
        var k :| 0 <= k < |init| && init[k].0 && init[k].1 == m;
        assert table[k] == init[k];
      }
    }
  }

  lemma SelectedPrefix(table: seq<(bool, string)>, k: nat)
    requires k < |table|
    ensures Selected(table[..k + 1]) == Selected(table[..k]) + (if table[k].0 then [table[k].1] else [])
  {
    assert table[..k + 1][..k] == table[..k];
  }

  /** The one message a failed check pushes, or nothing. */
  function Pushed(failed: bool, message: string): (r: seq<string>)
    ensures r == [] <==> !failed
    ensures failed ==> r == [message]
  {
    if failed then [message] else []
  }

  /** Only the check's own message can be pushed, and only when the check fails. */
  lemma PushedOnly(failed: bool, message: string)
    ensures forall m :: m in Pushed(failed, message) <==> failed && m == message
  {
  }

  /** After one more check, the reported messages are the earlier ones and the new check's own. */
  lemma PushedAfter(earlier: seq<string>, failed: bool, message: string)
    ensures forall m :: m in earlier + Pushed(failed, message) <==> m in earlier || (failed && m == message)
  {
  }

  /** A message that no other row carries is selected exactly when its own row holds. */
  lemma SelectedUnique(table: seq<(bool, string)>, k: nat)
    requires k < |table|
    requires forall j :: 0 <= j < |table| && j != k ==> table[j].1 != table[k].1
    ensures table[k].1 in Selected(table) <==> table[k].0
  {
    SelectedMembers(table, table[k].1);
  }
}
