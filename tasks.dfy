/**
 * The follower's work items and the queue-level facts the engine relies on:
 * the near-leader purge, per-kind counts, and how the executor may change
 * a task.
 */
module Tasks {
  import opened Wrappers
  import opened World
  import Seqs

  datatype TaskKind = Movement | Transition | Loot | MercenaryOptIn

  /**
   * One queued task. `labelId` is the ground label a Transition or
   * MercenaryOptIn task was built from; `bounds` is the radius it was built
   * with (carried, never read by the engine).
   */
  datatype TaskNode = TaskNode(
    kind: TaskKind,
    worldPosition: Pos,
    labelId: Option<nat>,
    bounds: int,
    attemptCount: nat)

  /** `new TaskNode(position, bounds)`: a Movement task. */
  function MovementTask(pos: Pos, bounds: int): TaskNode {
    TaskNode(Movement, pos, None, bounds, 0)
  }

  /** `new TaskNode(position, bounds, TaskNodeType.Loot)`. */
  function LootTask(pos: Pos, bounds: int): TaskNode {
    TaskNode(Loot, pos, None, bounds, 0)
  }

  /** `new TaskNode(label, bounds, kind)`: a task aimed at a ground label, placed at its item. */
  function LabelTask(l: GroundLabel, bounds: int, kind: TaskKind): TaskNode {
    TaskNode(kind, l.pos, Some(l.id), bounds, 0)
  }

  /** Tasks that move the follower toward where the leader was. */
  predicate IsRoute(t: TaskNode) {
    t.kind == Movement || t.kind == Transition
  }

  predicate Survives(t: TaskNode) {
    !IsRoute(t)
  }

  function Same(t: TaskNode): TaskNode {
    t
  }

  /** The near-leader purge: drop every Movement and Transition task. */
  function PurgeRoutes(ts: seq<TaskNode>): seq<TaskNode> {
    Seqs.SelectMap(ts, Survives, Same)
  }

  /** The purge keeps exactly the non-route tasks, unchanged and in their original order. */
  lemma PurgeRoutesIsOrderedSelection(ts: seq<TaskNode>) returns (idx: seq<int>)
    ensures Seqs.IsSelection(ts, Survives, Same, PurgeRoutes(ts), idx)
  {
    idx := Seqs.SelectMapIsOrderedSelection(ts, Survives, Same);
  }

  function CountKind(ts: seq<TaskNode>, k: TaskKind): nat {
    if ts == [] then 0 else (if ts[0].kind == k then 1 else 0) + CountKind(ts[1..], k)
  }

  /** `tasks.FirstOrDefault(t => t.Type == kind) != null`. */
  predicate HasKind(ts: seq<TaskNode>, k: TaskKind) {
    exists i | 0 <= i < |ts| :: ts[i].kind == k
  }

  lemma {:induction false} HasKindIffCount(ts: seq<TaskNode>, k: TaskKind)
    ensures HasKind(ts, k) <==> CountKind(ts, k) > 0
  {
    if ts != [] {
      HasKindIffCount(ts[1..], k);
      assert forall i :: 1 <= i < |ts| ==> ts[i] == ts[1..][i - 1];
      if HasKind(ts[1..], k) {
        var i :| 0 <= i < |ts[1..]| && ts[1..][i].kind == k;
        assert ts[i + 1].kind == k;
      }
    }
  }

  lemma {:induction false} CountAppend(a: seq<TaskNode>, b: seq<TaskNode>, k: TaskKind)
    ensures CountKind(a + b, k) == CountKind(a, k) + CountKind(b, k)
  {
    if a == [] {
      assert a + b == b;
    } else {
      assert (a + b)[1..] == a[1..] + b;
      CountAppend(a[1..], b, k);
    }
  }

  lemma CountTail(ts: seq<TaskNode>, k: TaskKind)
    requires ts != []
    ensures CountKind(ts[1..], k) <= CountKind(ts, k)
  {
  }

  /**
   * The purge leaves no route task and keeps every Loot and MercenaryOptIn
   * task.
   */
  lemma {:induction false} PurgeCounts(ts: seq<TaskNode>)
    ensures CountKind(PurgeRoutes(ts), Movement) == 0
    ensures CountKind(PurgeRoutes(ts), Transition) == 0
    ensures CountKind(PurgeRoutes(ts), Loot) == CountKind(ts, Loot)
    ensures CountKind(PurgeRoutes(ts), MercenaryOptIn) == CountKind(ts, MercenaryOptIn)
  {
    if ts != [] {
      PurgeCounts(ts[1..]);
      var head := if Survives(ts[0]) then [ts[0]] else [];
      assert PurgeRoutes(ts) == head + PurgeRoutes(ts[1..]);
      forall k: TaskKind {
        CountAppend(head, PurgeRoutes(ts[1..]), k);
      }
    }
  }

  /** The invariant the main loop keeps: never two Loot tasks, never two MercenaryOptIn tasks. */
  predicate AtMostOneOpportunistic(ts: seq<TaskNode>) {
    CountKind(ts, Loot) <= 1 && CountKind(ts, MercenaryOptIn) <= 1
  }

  /** `after` is `before` after the executor touched it: same task, attempts not fewer. */
  predicate Advanced(before: TaskNode, after: TaskNode) {
    after == before.(attemptCount := after.attemptCount) && after.attemptCount >= before.attemptCount
  }

  /**
   * `after` is `before` with at most its head changed: the head removed, or
   * the head advanced in place, or nothing changed.
   */
  predicate HeadOnlyChange(before: seq<TaskNode>, after: seq<TaskNode>) {
    || (before != [] && after == before[1..])
    || (before != [] && after != [] && after[1..] == before[1..] && Advanced(before[0], after[0]))
    || after == before
  }

  /** A head-only change never adds a task of any kind. */
  lemma HeadOnlyChangeCounts(before: seq<TaskNode>, after: seq<TaskNode>, k: TaskKind)
    requires HeadOnlyChange(before, after)
    ensures CountKind(after, k) <= CountKind(before, k)
  {
  }
}
