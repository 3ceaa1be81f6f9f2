/**
 * ChangedTeamContainer: a sync-tree node for a changed folder. Its kind is
 * a 32-bit Java int whose direction bits say which way the change goes; the
 * Differencer and ITeamNode constants, and the answers of the superclass
 * UnchangedTeamContainer, are parameters.
 */
module TeamSync {
  import opened Wrappers

  /** Differencer.DIRECTION_MASK and the direction values of ITeamNode and Differencer. */
  datatype DiffConstants = DiffConstants(directionMask: bv32, incoming: bv32, outgoing: bv32, conflicting: bv32)

  /** getChangeDirection(): the direction bits of kind. */
  function ChangeDirection(kind: bv32, c: DiffConstants): (d: bv32)
    ensures d & !c.directionMask == 0
  {
    kind & c.directionMask
  }

  /** canCatchup(): forced for an incoming or conflicting change, otherwise the superclass answer. */
  function CanCatchup(kind: bv32, c: DiffConstants, superCanCatchup: bool): (r: bool)
    ensures ChangeDirection(kind, c) == c.incoming || ChangeDirection(kind, c) == c.conflicting ==> r
    ensures ChangeDirection(kind, c) != c.incoming && ChangeDirection(kind, c) != c.conflicting ==>
      r == superCanCatchup
  {
    var direction := ChangeDirection(kind, c);
    if direction == c.incoming || direction == c.conflicting then true else superCanCatchup
  }

  /** canRelease(): forced for an outgoing change, otherwise the superclass answer. */
  function CanRelease(kind: bv32, c: DiffConstants, superCanRelease: bool): (r: bool)
    ensures ChangeDirection(kind, c) == c.outgoing ==> r
    ensures ChangeDirection(kind, c) != c.outgoing ==> r == superCanRelease
  {
    if ChangeDirection(kind, c) == c.outgoing then true else superCanRelease
  }

  /** Taking the direction of a direction changes nothing. */
  lemma ChangeDirectionIdempotent(kind: bv32, c: DiffConstants)
    ensures ChangeDirection(ChangeDirection(kind, c), c) == ChangeDirection(kind, c)
  {
    var d := ChangeDirection(kind, c);
    assert d & c.directionMask == (kind & c.directionMask) & c.directionMask;
  }

  /** The direction bits and the change-type bits make up the whole kind. */
  lemma DirectionAndChangeTypeMakeKind(kind: bv32, c: DiffConstants)
    ensures ChangeDirection(kind, c) | (kind & !c.directionMask) == kind
  {
    assert (kind & c.directionMask) | (kind & !c.directionMask) == kind & (c.directionMask | !c.directionMask);
  }

  /** Bits outside the mask (the change type) never affect the direction, canCatchup or canRelease. */
  lemma ChangeTypeBitsIgnored(kind: bv32, changeType: bv32, c: DiffConstants, superCanCatchup: bool, superCanRelease: bool)
    requires changeType & c.directionMask == 0
    ensures ChangeDirection(kind | changeType, c) == ChangeDirection(kind, c)
    ensures CanCatchup(kind | changeType, c, superCanCatchup) == CanCatchup(kind, c, superCanCatchup)
    ensures CanRelease(kind | changeType, c, superCanRelease) == CanRelease(kind, c, superCanRelease)
  {
    assert ChangeDirection(kind | changeType, c) == ChangeDirection(kind, c);
  }

  /** A diff element, by identity. */
  type ElementId = nat

  /** ArrayList.remove(Object): the first occurrence of x goes, if there is one. */
  function RemoveFirst(s: seq<ElementId>, x: ElementId): (r: seq<ElementId>)
    ensures x !in s ==> r == s
    ensures x in s ==> |r| == |s| - 1 && multiset(r) == multiset(s) - multiset{x}
  {
    if s == [] then []
    else
      assert s == [s[0]] + s[1..];
      if s[0] == x then s[1..] else [s[0]] + RemoveFirst(s[1..], x)
  }

  /** Only the first occurrence goes: what precedes it and what follows it keep their order. */
  lemma {:induction false} RemoveFirstSplits(s: seq<ElementId>, x: ElementId, i: nat)
    requires i < |s| && s[i] == x && x !in s[..i]
    ensures RemoveFirst(s, x) == s[..i] + s[i + 1..]
  {
    if i == 0 {
      assert s[..0] + s[1..] == s[1..];
    } else {
      var t := s[1..];
      assert s[0] in s[..i];
      assert s[0] != x;
      assert t[..i - 1] == s[1..i];
      assert x !in t[..i - 1] && t[i - 1] == x;
      RemoveFirstSplits(t, x, i - 1);
      assert RemoveFirst(s, x) == [s[0]] + RemoveFirst(t, x);
      assert t[i..] == s[i + 1..];
      assert [s[0]] + s[1..i] == s[..i];
      assert [s[0]] + (s[1..i] + s[i + 1..]) == s[..i] + s[i + 1..];
    }
  }

  /** The parent container in the sync tree. */
  class DiffContainer {
    var children: seq<ElementId>

    constructor (children: seq<ElementId>)
      ensures this.children == children
    {
      this.children := children;
    }
  }

  class ChangedTeamContainer {
    const kind: bv32
    const parent: Option<DiffContainer>
    var children: seq<ElementId>

    constructor (kind: bv32, parent: Option<DiffContainer>, children: seq<ElementId>)
      ensures this.kind == kind && this.parent == parent && this.children == children
    {
      this.kind := kind;
      this.parent := parent;
      this.children := children;
    }

    /**
     * removeToRoot(child): removes the child only; this container stays in
     * its parent even when it becomes empty.
     */
    method RemoveToRoot(child: ElementId)
      modifies this
      ensures children == RemoveFirst(old(children), child)
      ensures parent.Some? ==> unchanged(parent.value)
    {
      children := RemoveFirst(children, child);
    }
  }
}
