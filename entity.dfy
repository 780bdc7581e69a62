/**
 * The domain entities: a path node with its locked → unlocked → completed status and a
 * learning path with its status. Go struct values are datatypes; a method with a pointer
 * receiver that updates the struct in place is a method of a small class holding the
 * pointee (`PathNodeRef`, `LearningPathRef`).
 */
module Entity {

  const MinInt: int := -0x8000_0000_0000_0000
  const MaxInt: int := 0x7fff_ffff_ffff_ffff

  /** Go's `int` on a 64-bit platform. */
  type GoInt = x: int | MinInt <= x <= MaxInt

  /** `time.Time` reduced to an instant on one clock (no location, no monotonic reading). */
  type Time = int

  /** `NodeStatus` is a string type: the three constants are the intended values. */
  type NodeStatus = string

  const NodeStatusLocked: NodeStatus := "locked"
  const NodeStatusUnlocked: NodeStatus := "unlocked"
  const NodeStatusCompleted: NodeStatus := "completed"

  datatype PathNode = PathNode(
    ID: string,
    PathID: string,
    Position: GoInt,
    Title: string,
    Description: string,
    MarkdownContent: string,
    BoilerplateCode: string,
    DocumentationSnippet: string,
    HiddenTests: string,
    Status: NodeStatus,
    XPReward: GoInt,
    CreatedAt: Time,
    UpdatedAt: Time)
  {
    predicate IsUnlocked() {
      Status == NodeStatusUnlocked
    }

    predicate IsCompleted() {
      Status == NodeStatusCompleted
    }

    /** The node after `Unlock()` at time `now`. */
    function AfterUnlock(now: Time): PathNode {
      if Status == NodeStatusLocked then this.(Status := NodeStatusUnlocked, UpdatedAt := now) else this
    }

    /** The node after `Complete()` at time `now`. */
    function AfterComplete(now: Time): PathNode {
      if Status == NodeStatusUnlocked then this.(Status := NodeStatusCompleted, UpdatedAt := now) else this
    }
  }

  /** `*PathNode`: the receiver of `Unlock` and `Complete`. */
  class PathNodeRef {
    var node: PathNode

    constructor (n: PathNode)
      ensures node == n
    {
      node := n;
    }

    method Unlock(now: Time)
      modifies this
      ensures node == old(node).AfterUnlock(now)
    {
      if node.Status == NodeStatusLocked {
        node := node.(Status := NodeStatusUnlocked);
        node := node.(UpdatedAt := now);
      }
    }

    method Complete(now: Time)
      modifies this
      ensures node == old(node).AfterComplete(now)
    {
      if node.Status == NodeStatusUnlocked {
        node := node.(Status := NodeStatusCompleted);
        node := node.(UpdatedAt := now);
      }
    }
  }

  /** `IsUnlocked` and `IsCompleted` are never both true. */
  lemma StatusPredicatesExclusive(n: PathNode)
    ensures !(n.IsUnlocked() && n.IsCompleted())
  {
  }

  /** `Unlock` moves a locked node to unlocked and leaves every other node as it is. */
  lemma UnlockTransition(n: PathNode, now: Time)
    ensures n.Status == NodeStatusLocked ==> n.AfterUnlock(now).IsUnlocked()
    ensures n.Status != NodeStatusLocked ==> n.AfterUnlock(now) == n
  {
  }

  /** `Complete` moves an unlocked node to completed; a locked node cannot be completed directly. */
  lemma CompleteTransition(n: PathNode, now: Time)
    ensures n.IsUnlocked() ==> n.AfterComplete(now).IsCompleted()
    ensures !n.IsUnlocked() ==> n.AfterComplete(now) == n
  {
  }

  /** Both transitions touch only `Status` and `UpdatedAt`. */
  lemma TransitionsChangeOnlyStatusAndTime(n: PathNode, now: Time)
    ensures n.AfterUnlock(now).(Status := n.Status, UpdatedAt := n.UpdatedAt) == n
    ensures n.AfterComplete(now).(Status := n.Status, UpdatedAt := n.UpdatedAt) == n
  {
  }

  /** Repeating either transition changes nothing more, and completed is final for both. */
  lemma TransitionsIdempotent(n: PathNode, t1: Time, t2: Time)
    ensures n.AfterUnlock(t1).AfterUnlock(t2) == n.AfterUnlock(t1)
    ensures n.AfterComplete(t1).AfterComplete(t2) == n.AfterComplete(t1)
    ensures n.IsCompleted() ==> n.AfterUnlock(t1) == n && n.AfterComplete(t1) == n
  {
  }

  /** A locked node that is unlocked and then completed ends completed. */
  lemma UnlockThenComplete(n: PathNode, t1: Time, t2: Time)
    requires n.Status == NodeStatusLocked
    ensures n.AfterUnlock(t1).AfterComplete(t2).IsCompleted()
    ensures n.AfterUnlock(t1).AfterComplete(t2).UpdatedAt == t2
  {
  }

  /** The stage of a status on the locked → unlocked → completed line; other strings are off it. */
  function Stage(s: NodeStatus): int {
    if s == NodeStatusLocked then 0
    else if s == NodeStatusUnlocked then 1
    else if s == NodeStatusCompleted then 2
    else -1
  }

  /** Neither transition ever moves a node backwards, and each moves it at most one stage. */
  lemma TransitionsMoveForward(n: PathNode, now: Time)
    ensures Stage(n.Status) <= Stage(n.AfterUnlock(now).Status) <= Stage(n.Status) + 1
    ensures Stage(n.Status) <= Stage(n.AfterComplete(now).Status) <= Stage(n.Status) + 1
  {
  }

  type PathStatus = string

  const PathStatusActive: PathStatus := "active"
  const PathStatusCompleted: PathStatus := "completed"
  const PathStatusArchived: PathStatus := "archived"

  datatype LearningPath = LearningPath(
    ID: string,
    UserID: string,
    Topic: string,
    Title: string,
    Status: PathStatus,
    CreatedAt: Time,
    UpdatedAt: Time,
    Nodes: seq<PathNode>)
  {
    predicate IsActive() {
      Status == PathStatusActive
    }

    /** The path after `MarkAsCompleted()` at time `now`; there is no guard on the old status. */
    function AfterMarkAsCompleted(now: Time): LearningPath {
      this.(Status := PathStatusCompleted, UpdatedAt := now)
    }
  }

  /** `*LearningPath`: the receiver of `MarkAsCompleted`. */
  class LearningPathRef {
    var path: LearningPath

    constructor (p: LearningPath)
      ensures path == p
    {
      path := p;
    }

    method MarkAsCompleted(now: Time)
      modifies this
      ensures path == old(path).AfterMarkAsCompleted(now)
    {
      path := path.(Status := PathStatusCompleted);
      path := path.(UpdatedAt := now);
    }
  }

  /**
   * Marking as completed works from any status (archived included), leaves the path
   * inactive, is idempotent on the status, and touches only `Status` and `UpdatedAt`.
   */
  lemma MarkAsCompletedEffect(p: LearningPath, t1: Time, t2: Time)
    ensures p.AfterMarkAsCompleted(t1).Status == PathStatusCompleted
    ensures !p.AfterMarkAsCompleted(t1).IsActive()
    ensures p.AfterMarkAsCompleted(t1).AfterMarkAsCompleted(t2).Status == p.AfterMarkAsCompleted(t1).Status
    ensures p.AfterMarkAsCompleted(t1).(Status := p.Status, UpdatedAt := p.UpdatedAt) == p
  {
  }
}
