/**
 * Layout.swift: the two operations every layout has. `calculateSize(in:)` is a
 * pure function of the rectangle; `layout(in:)` returns the rectangle the layout
 * ends up occupying and, as its only effect, assigns rectangles to leaf elements.
 * That effect is modelled as the ordered log of those assignments.
 */
module LayoutProtocol {
  import opened Wrappers
  import opened CoreGraphics

  /** The leaf element `id` was assigned `rect` (the test double's `rect` property is set). */
  datatype Write = Write(id: nat, rect: CGRect)

  /** What `layout(in:)` produces: the returned rectangle and the leaf assignments, in the order they happen. */
  datatype Placement = Placement(rect: CGRect, writes: seq<Write>)

  /** Concatenation of logs, first to last. */
  function Flatten<T>(logs: seq<seq<T>>): (r: seq<T>)
    ensures logs == [] ==> r == []
  {
    if logs == [] then [] else Flatten(logs[..|logs| - 1]) + logs[|logs| - 1]
  }

  /** Appending one more log to the list appends it to the concatenation. */
  lemma FlattenSnoc<T>(logs: seq<seq<T>>, last: seq<T>)
    ensures Flatten(logs + [last]) == Flatten(logs) + last
  {
    assert (logs + [last])[..|logs|] == logs;
  }

  /** The rectangle a leaf holds after a log has been applied: its last assignment, if any. */
  function LastRect(writes: seq<Write>, id: nat): Option<CGRect> {
    if writes == [] then None
    else if writes[|writes| - 1].id == id then Some(writes[|writes| - 1].rect)
    else LastRect(writes[..|writes| - 1], id)
  }

  /**
   * A log gives a leaf a rectangle exactly when some entry names it; `None`
   * stands for a leaf that still holds the `.zero` it was created with.
   */
  lemma {:induction false} LastRectPresent(writes: seq<Write>, id: nat)
    ensures LastRect(writes, id).Some? <==> exists k :: 0 <= k < |writes| && writes[k].id == id
  {
    if writes != [] && writes[|writes| - 1].id != id {
      var prefix := writes[..|writes| - 1];
      LastRectPresent(prefix, id);
      if k :| 0 <= k < |writes| && writes[k].id == id {
        assert prefix[k].id == id;
      }
      if k :| 0 <= k < |prefix| && prefix[k].id == id {
        assert writes[k].id == id;
      }
    } else if writes != [] {
      assert writes[|writes| - 1].id == id;
    }
  }

  /** The rectangle a leaf holds is the one of its last assignment: no later entry of the log is for that leaf. */
  lemma {:induction false} LastRectIsLastWrite(writes: seq<Write>, id: nat)
    ensures LastRect(writes, id).Some? ==>
              exists k :: 0 <= k < |writes| && writes[k] == Write(id, LastRect(writes, id).value)
                          && forall j :: k < j < |writes| ==> writes[j].id != id
  {
    if writes != [] && writes[|writes| - 1].id != id {
      var prefix := writes[..|writes| - 1];
      LastRectIsLastWrite(prefix, id);
      if LastRect(prefix, id).Some? {
        var k :| 0 <= k < |prefix| && prefix[k] == Write(id, LastRect(prefix, id).value)
                 && forall j :: k < j < |prefix| ==> prefix[j].id != id;
        assert writes[k] == Write(id, LastRect(writes, id).value);
        assert forall j :: k < j < |writes| ==> writes[j].id != id by {
          assert forall j :: k < j < |prefix| ==> writes[j] == prefix[j];
        }
      }
    } else if writes != [] {
      assert writes[|writes| - 1] == Write(id, LastRect(writes, id).value);
    }
  }
}
