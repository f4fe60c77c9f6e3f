/** The list of visited permissions with nested undo sessions: only the sizes of the list are
    remembered, and that suffices to restore it. */
module PermissionVisitor {

  class Visitor<T> {
    var permissions: seq<T>
    var sizes: seq<nat>
    /** The list as it was when each open session began. */
    ghost var snapshots: seq<seq<T>>

    /** Every snapshot is a beginning of the next one, and the last one of the current list. */
    ghost predicate Valid()
      reads this
    {
      && |sizes| == |snapshots|
      && (forall i :: 0 <= i < |sizes| ==> sizes[i] == |snapshots[i]| && snapshots[i] <= permissions)
      && (forall i, j :: 0 <= i < j < |sizes| ==> sizes[i] <= sizes[j] && snapshots[i] <= snapshots[j])
    }

    constructor ()
      ensures Valid() && permissions == [] && snapshots == []
    {
      permissions, sizes, snapshots := [], [], [];
    }

    method Visit(p: T)
      requires Valid()
      modifies this`permissions
      ensures Valid() && permissions == old(permissions) + [p] && snapshots == old(snapshots)
    {
      permissions := permissions + [p];
    }

    method PushUndo()
      requires Valid()
      modifies this`sizes, this`snapshots
      ensures Valid() && permissions == old(permissions) && snapshots == old(snapshots) + [permissions]
    {
      sizes := sizes + [|permissions|];
      snapshots := snapshots + [permissions];
    }

    /** Ends the innermost session and takes back what was visited in it; the check of the sizes
        always succeeds. */
    method PopUndo()
      requires Valid() && sizes != []
      modifies this
      ensures Valid() && permissions == old(snapshots)[|old(snapshots)| - 1]
      ensures snapshots == old(snapshots)[..|old(snapshots)| - 1]
    {
      var n := |sizes| - 1;
      assert sizes[n] <= |permissions|;
      assert permissions[..sizes[n]] == snapshots[n];
      permissions := permissions[..sizes[n]];
      sizes := sizes[..n];
      snapshots := snapshots[..n];
    }

    /** Ends the innermost session and keeps what was visited in it. */
    method SquashUndo()
      requires Valid() && sizes != []
      modifies this`sizes, this`snapshots
      ensures Valid() && permissions == old(permissions) && snapshots == old(snapshots)[..|old(snapshots)| - 1]
    {
      sizes := sizes[..|sizes| - 1];
      snapshots := snapshots[..|snapshots| - 1];
    }
  }
}
