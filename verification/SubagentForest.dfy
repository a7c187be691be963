/** The live subagents of a DeepSeek Harness run, as a map from child to parent kept in insertion order. */
module SubagentForest {
  import opened Prelude

  datatype Link = Link(child: string, parent: string)

  predicate IsChild(links: seq<Link>, x: string) {
    exists i :: 0 <= i < |links| && links[i].child == x
  }

  predicate Owns(root: string, links: seq<Link>, x: string) {
    x == root || IsChild(links, x)
  }

  /** Every child is new when it is linked, and its parent is the root or an earlier child. */
  ghost predicate Forest(root: string, links: seq<Link>) {
    forall i :: 0 <= i < |links| ==> !Owns(root, links[..i], links[i].child) && Owns(root, links[..i], links[i].parent)
  }

  /** `x` is `top` or descends from it. */
  predicate Under(links: seq<Link>, x: string, top: string) {
    x == top
    || (links != [] &&
        var last, earlier := links[|links| - 1], links[..|links| - 1];
        Under(earlier, if last.child == x then last.parent else x, top))
  }

  /** The links of those that do not descend from `top`, in their order. */
  function Outside(links: seq<Link>, top: string): seq<Link> {
    OutsideUpTo(links, |links|, top)
  }

  function OutsideUpTo(links: seq<Link>, n: nat, top: string): seq<Link>
    requires n <= |links|
  {
    if n == 0 then []
    else
      OutsideUpTo(links, n - 1, top) + if Under(links, links[n - 1].child, top) then [] else [links[n - 1]]
  }

  // ---------------------------------------------------------------- forests

  lemma ForestPrefix(root: string, links: seq<Link>, n: nat)
    requires Forest(root, links) && n <= |links|
    ensures Forest(root, links[..n])
  {
    forall i | 0 <= i < n ensures links[..n][..i] == links[..i] && links[..n][i] == links[i] {
    }
  }

  lemma PrefixOwns(root: string, links: seq<Link>, i: nat, n: nat, x: string)
    requires i <= n <= |links| && Owns(root, links[..i], x)
    ensures Owns(root, links[..n], x)
  {
    if x != root {
      var k :| 0 <= k < i && links[..i][k].child == x;
      assert links[..n][k].child == x;
    }
  }

  /** Registering keeps the forest. */
  lemma RegisteredForest(root: string, links: seq<Link>, child: string, parent: string)
    requires Forest(root, links) && Owns(root, links, parent) && !Owns(root, links, child)
    ensures Forest(root, links + [Link(child, parent)])
  {
    var more := links + [Link(child, parent)];
    forall i | 0 <= i < |more| ensures !Owns(root, more[..i], more[i].child) && Owns(root, more[..i], more[i].parent) {
      if i < |links| {
        assert more[..i] == links[..i];
      } else {
        assert more[..i] == links;
      }
    }
  }

  /** Everything in a forest hangs below its root. */
  lemma {:induction false} AllUnderRoot(root: string, links: seq<Link>, x: string)
    requires Forest(root, links) && Owns(root, links, x)
    ensures Under(links, x, root)
  {
    if x != root {
      var last, earlier := links[|links| - 1], links[..|links| - 1];
      ForestPrefix(root, links, |links| - 1);
      assert !Owns(root, earlier, last.child) && Owns(root, earlier, last.parent);
      if last.child == x {
        AllUnderRoot(root, earlier, last.parent);
      } else {
        var k :| 0 <= k < |links| && links[k].child == x;
        assert earlier[k].child == x;
        AllUnderRoot(root, earlier, x);
      }
    }
  }

  /** The child itself or its parent's chain: what `Under` says one link at a time. */
  lemma {:induction false} UnderByParent(root: string, links: seq<Link>, i: nat, top: string)
    requires Forest(root, links) && i < |links|
    ensures Under(links, links[i].child, top) <==> links[i].child == top || Under(links[..i], links[i].parent, top)
  {
    var last, earlier := links[|links| - 1], links[..|links| - 1];
    if i < |links| - 1 {
      ForestPrefix(root, links, |links| - 1);
      assert !IsChild(earlier, last.child);
      assert earlier[i].child == links[i].child && links[..i] == earlier[..i];
      assert last.child != links[i].child;
      UnderByParent(root, earlier, i, top);
    }
  }

  /** Later links do not change whether an earlier one descends from `top`. */
  lemma {:induction false} UnderPrefix(root: string, links: seq<Link>, n: nat, x: string, top: string)
    requires Forest(root, links) && n <= |links| && Owns(root, links[..n], x)
    ensures Under(links, x, top) <==> Under(links[..n], x, top)
  {
    if n < |links| {
      var last, earlier := links[|links| - 1], links[..|links| - 1];
      ForestPrefix(root, links, |links| - 1);
      PrefixOwns(root, links, n, |links| - 1, x);
      assert links[..|links| - 1] == earlier && last.child != x;
      assert earlier[..n] == links[..n];
      UnderPrefix(root, earlier, n, x, top);
    } else {
      assert links[..n] == links;
    }
  }

  /** A child descends from `top` exactly when it is `top` or its parent does. */
  lemma ChildUnder(root: string, links: seq<Link>, i: nat, top: string)
    requires Forest(root, links) && i < |links|
    ensures Under(links, links[i].child, top) <==> links[i].child == top || Under(links, links[i].parent, top)
  {
    UnderByParent(root, links, i, top);
    UnderPrefix(root, links, i, links[i].parent, top);
  }

  // ---------------------------------------------------------------- removing a subtree

  lemma {:induction false} OutsideMembers(links: seq<Link>, n: nat, top: string)
    requires n <= |links|
    ensures forall l :: l in OutsideUpTo(links, n, top) <==>
      exists i :: 0 <= i < n && links[i] == l && !Under(links, links[i].child, top)
  {
    hide Under;
    if n > 0 {
      OutsideMembers(links, n - 1, top);
      forall l | l in OutsideUpTo(links, n, top)
        ensures exists i :: 0 <= i < n && links[i] == l && !Under(links, links[i].child, top)
      {
        if l !in OutsideUpTo(links, n - 1, top) {
          assert links[n - 1] == l;
        }
      }
    }
  }

  lemma OutsideChild(links: seq<Link>, n: nat, top: string, x: string)
    requires n <= |links|
    ensures IsChild(OutsideUpTo(links, n, top), x) <==> IsChild(links[..n], x) && !Under(links, x, top)
  {
    hide Under;
    OutsideMembers(links, n, top);
    var kept := OutsideUpTo(links, n, top);
    if IsChild(kept, x) {
      var k :| 0 <= k < |kept| && kept[k].child == x;
      assert kept[k] in kept;
      var i :| 0 <= i < n && links[i] == kept[k] && !Under(links, links[i].child, top);
      assert links[..n][i].child == x;
    }
    if IsChild(links[..n], x) && !Under(links, x, top) {
      var i :| 0 <= i < n && links[..n][i].child == x;
      assert links[i] in kept;
      var k :| 0 <= k < |kept| && kept[k] == links[i];
    }
  }

  lemma OutsideOwns(root: string, links: seq<Link>, n: nat, top: string, x: string)
    requires Forest(root, links) && n <= |links| && root != top
    ensures Owns(root, OutsideUpTo(links, n, top), x) <==> Owns(root, links[..n], x) && !Under(links, x, top)
  {
    RootOutside(root, links, top);
    OutsideChild(links, n, top, x);
  }

  lemma {:induction false} RootOutside(root: string, links: seq<Link>, top: string)
    requires Forest(root, links) && root != top
    ensures !Under(links, root, top)
  {
    if links != [] {
      ForestPrefix(root, links, |links| - 1);
      assert links[|links| - 1].child != root;
      RootOutside(root, links[..|links| - 1], top);
    }
  }

  lemma EmptyForest(root: string)
    ensures Forest(root, [])
  {
  }

  /** What stays after a subtree is removed is a forest under the same root. */
  lemma {:induction false} OutsideForest(root: string, links: seq<Link>, n: nat, top: string)
    requires Forest(root, links) && n <= |links| && root != top
    ensures Forest(root, OutsideUpTo(links, n, top))
  {
    EmptyForest(root);
    if n > 0 {
      var l := links[n - 1];
      assert !Owns(root, links[..n - 1], l.child) && Owns(root, links[..n - 1], l.parent);
      hide Forest, Under, Owns;
      OutsideForest(root, links, n - 1, top);
      if !Under(links, l.child, top) {
        ChildUnder(root, links, n - 1, top);
        OutsideOwns(root, links, n - 1, top, l.child);
        OutsideOwns(root, links, n - 1, top, l.parent);
        RegisteredForest(root, OutsideUpTo(links, n - 1, top), l.child, l.parent);
        assert Link(l.child, l.parent) == l;
      } else {
        assert OutsideUpTo(links, n, top) == OutsideUpTo(links, n - 1, top);
      }
    }
  }

  /** Finishing a child removes exactly it and its descendants; every child left is still connected to the root. */
  lemma FinishedForest(root: string, links: seq<Link>, child: string)
    requires Forest(root, links) && IsChild(links, child)
    ensures var kept := Outside(links, child);
      && Forest(root, kept)
      && (forall x :: IsChild(kept, x) <==> IsChild(links, x) && !Under(links, x, child))
      && (forall x :: IsChild(kept, x) ==> Under(kept, x, root))
  {
    var kept := Outside(links, child);
    ChildNotRoot(root, links, child);
    OutsideForest(root, links, |links|, child);
    assert links[..|links|] == links;
    forall x ensures IsChild(kept, x) <==> IsChild(links, x) && !Under(links, x, child) {
      OutsideOwns(root, links, |links|, child, x);
      ChildNotRoot(root, kept, x);
      ChildNotRoot(root, links, x);
    }
    forall x | IsChild(kept, x) ensures Under(kept, x, root) {
      AllUnderRoot(root, kept, x);
    }
  }

  lemma ChildNotRoot(root: string, links: seq<Link>, x: string)
    requires Forest(root, links)
    ensures IsChild(links, x) ==> x != root
  {
  }

  // ---------------------------------------------------------------- the run object

  class Subagents {
    const root: string
    var childParents: seq<Link>

    ghost predicate Valid()
      reads this
    {
      Forest(root, childParents)
    }

    constructor (root: string)
      ensures Valid() && childParents == [] && this.root == root
    {
      this.root, childParents := root, [];
    }

    /** False is the incompatible-relationship error. */
    method RegisterChild(parent: string, child: string) returns (ok: bool)
      requires Valid()
      modifies this
      ensures Valid()
      ensures ok == (Owns(root, old(childParents), parent) && !Owns(root, old(childParents), child))
      ensures childParents == if ok then old(childParents) + [Link(child, parent)] else old(childParents)
    {
      if !Owns(root, childParents, parent) || Owns(root, childParents, child) {
        return false;
      }
      RegisteredForest(root, childParents, child, parent);
      childParents := childParents + [Link(child, parent)];
      return true;
    }

    method ParentOf(child: string) returns (parent: Option<string>)
      requires Valid()
      ensures parent.Some? <==> IsChild(childParents, child)
      ensures parent.Some? ==> Link(child, parent.value) in childParents
    {
      for i := 0 to |childParents|
        invariant forall k :: 0 <= k < i ==> childParents[k].child != child
      {
        if childParents[i].child == child {
          return Some(childParents[i].parent);
        }
      }
      return None;
    }

    /** One sweep over the links: children of what is already marked are marked too. */
    method Sweep(marked: set<string>, ghost top: string) returns (removed: set<string>, changed: bool)
      requires Valid() && top in marked && forall x :: x in marked ==> Under(childParents, x, top)
      ensures marked <= removed && forall x :: x in removed ==> Under(childParents, x, top)
      ensures forall x :: x in removed && x !in marked ==> IsChild(childParents, x)
      ensures changed <==> removed != marked
      ensures !changed ==> forall i :: 0 <= i < |childParents| && childParents[i].parent in removed ==>
          childParents[i].child in removed
    {
      removed, changed := marked, false;
      for i := 0 to |childParents|
        invariant marked <= removed && (changed <==> removed != marked)
        invariant forall x :: x in removed ==> Under(childParents, x, top)
        invariant forall x :: x in removed && x !in marked ==> IsChild(childParents, x)
        invariant !changed ==> forall k :: 0 <= k < i && childParents[k].parent in removed ==>
            childParents[k].child in removed
      {
        if childParents[i].parent in removed && childParents[i].child !in removed {
          ChildUnder(root, childParents, i, top);
          removed, changed := removed + {childParents[i].child}, true;
        }
      }
    }

    /** False when the completion names another parent. Otherwise sweep until nothing changes, then delete. */
    method FinishChild(parent: string, child: string) returns (ok: bool)
      requires Valid()
      modifies this
      ensures Valid()
      ensures ok <==> Link(child, parent) in old(childParents)
      ensures childParents == if ok then Outside(old(childParents), child) else old(childParents)
    {
      var known := ParentOf(child);
      OneParent(root, childParents, child);
      if known != Some(parent) {
        return false;
      }
      var removed, changed := {child}, true;
      ghost var all := Children(childParents);
      ChildrenAre(childParents);
      while changed
        invariant Valid() && childParents == old(childParents)
        invariant child in removed && forall x :: x in removed ==> Under(childParents, x, child)
        invariant removed <= all
        invariant !changed ==> Closed(childParents, removed)
        decreases all - removed, changed
      {
        removed, changed := Sweep(removed, child);
        ChildrenAre(childParents);
      }
      MarkedAreUnder(root, childParents, child, removed);
      ChildNotRoot(root, childParents, child);
      OutsideForest(root, childParents, |childParents|, child);
      Delete(removed, child);
      return true;
    }

    method Delete(removed: set<string>, ghost top: string)
      requires forall i :: 0 <= i < |childParents| ==>
          (childParents[i].child in removed <==> Under(childParents, childParents[i].child, top))
      modifies this
      ensures childParents == Outside(old(childParents), top)
    {
      var kept: seq<Link> := [];
      for i := 0 to |childParents|
        invariant kept == OutsideUpTo(childParents, i, top)
        invariant childParents == old(childParents)
      {
        if childParents[i].child !in removed {
          kept := kept + [childParents[i]];
        }
      }
      childParents := kept;
    }
  }

  ghost function Children(links: seq<Link>): set<string> {
    set i | 0 <= i < |links| :: links[i].child
  }

  lemma ChildrenAre(links: seq<Link>)
    ensures forall x :: x in Children(links) <==> IsChild(links, x)
  {
    forall x | IsChild(links, x) ensures x in Children(links) {
      var i :| 0 <= i < |links| && links[i].child == x;
    }
  }

  ghost predicate Closed(links: seq<Link>, removed: set<string>) {
    forall i :: 0 <= i < |links| && links[i].parent in removed ==> links[i].child in removed
  }

  lemma OneParent(root: string, links: seq<Link>, child: string)
    requires Forest(root, links)
    ensures forall i, j :: 0 <= i < j < |links| ==> links[i].child != links[j].child
  {
    forall i, j | 0 <= i < j < |links| ensures links[i].child != links[j].child {
      assert links[..j][i].child == links[i].child;
    }
  }

  /** A set closed under children and holding only descendants holds all of them. */
  lemma MarkedAreUnder(root: string, links: seq<Link>, top: string, removed: set<string>)
    requires Forest(root, links) && IsChild(links, top) && top in removed && Closed(links, removed)
    requires forall x :: x in removed ==> Under(links, x, top)
    ensures forall i :: 0 <= i < |links| ==> (links[i].child in removed <==> Under(links, links[i].child, top))
  {
    forall i | 0 <= i < |links| && Under(links, links[i].child, top) ensures links[i].child in removed {
      UnderIsMarked(root, links, i, top, removed);
    }
  }

  lemma {:induction false} UnderIsMarked(root: string, links: seq<Link>, i: nat, top: string, removed: set<string>)
    requires Forest(root, links) && top in removed && Closed(links, removed)
    requires i < |links| && Under(links, links[i].child, top)
    ensures links[i].child in removed
    decreases i
  {
    if links[i].child != top {
      UnderByParent(root, links, i, top);
      ChildUnder(root, links, i, top);
      if links[i].parent != top {
        if links[i].parent == root {
          RootOutside(root, links, top);
        } else {
          var k :| 0 <= k < i && links[..i][k].child == links[i].parent;
          UnderIsMarked(root, links, k, top, removed);
        }
      }
    }
  }
}
