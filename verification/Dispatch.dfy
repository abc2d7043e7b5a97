/** Nested internal calls: the dispatcher's gate, the call tree it allows, and what holds of every handler that runs. */
module Dispatch {
  import opened Wrappers

  const MAX_DEPTH := 32

  datatype Actor = Actor(principal: string)

  datatype Scope = Scope(installation: string, detail: string)

  /** A transaction's unit, or the same transaction seen under a resolved subject's authority. */
  datatype Unit =
    | Transaction(id: nat, readOnly: bool, actor: Actor, scope: Scope)
    | Subject(inner: Unit, actor: Actor, scope: Scope)
  {
    /** A subject unit inherits everything but actor and scope. */
    predicate ReadOnly() {
      match this
      case Transaction(_, r, _, _) => r
      case Subject(u, _, _) => u.ReadOnly()
    }

    function Base(): Unit {
      match this
      case Transaction(_, _, _, _) => this
      case Subject(u, _, _) => u.Base()
    }
  }

  datatype Descriptor = Descriptor(internal: bool, callers: seq<string>, version: int, mutation: bool)

  type Registry = map<string, Descriptor>

  /**
   * What a piece of code inside the transaction is doing: handling an operation, resolving its subject, or revalidating
   * authority for it.
   */
  datatype Role = Handling | Resolving | Revalidating

  /** Code running inside a dispatched transaction; `path` tells apart two runs of the same operation. */
  datatype Frame = Frame(operation: string, role: Role, chain: seq<string>, unit: Unit, path: seq<nat>)

  /** A nested call as the running code issues it, with any unit it can lay hands on. */
  datatype Attempt = Attempt(unit: Unit, caller: string, operation: string, version: int)

  // ---- The gate ----

  /** The checks a nested call must pass, in the dispatcher's order. */
  predicate Admits(reg: Registry, f: Frame, a: Attempt) {
    && |f.chain| > 0 && |f.chain| < MAX_DEPTH
    && a.operation !in f.chain
    && a.operation in reg
    && reg[a.operation].internal
    && a.caller in reg[a.operation].callers
    && (a.version == 0 || a.version == reg[a.operation].version)
    && !(a.unit.ReadOnly() && reg[a.operation].mutation)
    && f.unit == a.unit
  }

  method CallerAllowed(callers: seq<string>, caller: string) returns (ok: bool)
    ensures ok <==> caller in callers
  {
    for i := 0 to |callers|
      invariant caller !in callers[..i]
    {
      if callers[i] == caller {
        return true;
      }
    }
    return false;
  }

  method Gate(reg: Registry, f: Frame, a: Attempt) returns (next: Option<seq<string>>)
    ensures next.Some? <==> Admits(reg, f, a)
    ensures next.Some? ==> next.value == f.chain + [a.operation]
  {
    if |f.chain| == 0 || |f.chain| >= MAX_DEPTH {
      return None;
    }
    for i := 0 to |f.chain|
      invariant a.operation !in f.chain[..i]
    {
      if f.chain[i] == a.operation {
        return None;
      }
    }
    if a.operation !in reg || !reg[a.operation].internal {
      return None;
    }
    var allowed := CallerAllowed(reg[a.operation].callers, a.caller);
    if !allowed || (a.version != 0 && a.version != reg[a.operation].version) {
      return None;
    }
    if a.unit.ReadOnly() && reg[a.operation].mutation {
      return None;
    }
    if f.unit != a.unit {
      return None;
    }
    return Some(f.chain + [a.operation]);
  }

  /** Operations that run under the authority of the subject they concern. */
  predicate SubjectOperation(a: Attempt) {
    || (a.operation == "_effects.prepare" && a.caller == "execution")
    || a.operation == "_effects.admit" || a.operation == "_effects.claim"
    || a.operation == "_effects.reconciliation.prepare"
  }

  /** The owner's answer when asked for the subject, and whether the subject's authority still holds. */
  datatype Resolution = Resolved(actor: Actor, scope: Scope, authorized: bool) | Unresolved

  predicate Acceptable(r: Resolution, unit: Unit) {
    r.Resolved? && r.actor.principal != "" && r.scope.installation == unit.scope.installation
  }

  // ---- The call tree ----

  /** How running code behaves: the calls it issues, and the subjects owners resolve. Any behaviour is allowed. */
  datatype World = World(reg: Registry, calls: Frame -> seq<Attempt>, resolve: Frame -> Resolution)

  function Child(f: Frame, a: Attempt, role: Role, unit: Unit, n: nat): Frame {
    Frame(a.operation, role, f.chain + [a.operation], unit, f.path + [n])
  }

  /**
   * Every frame that runs beneath and including the given one, in order. That this function is total is the proof that
   * no call tree is infinite, whatever handlers try: each level extends the chain and the gate bounds its length.
   */
  function Executed(w: World, f: Frame): seq<Frame>
    requires |f.chain| <= MAX_DEPTH
    decreases MAX_DEPTH - |f.chain|, 1, 0
  {
    [f] + Nested(w, f, |w.calls(f)|)
  }

  /** What the first n calls of a frame run. */
  function Nested(w: World, f: Frame, n: nat): seq<Frame>
    requires n <= |w.calls(f)| && |f.chain| <= MAX_DEPTH
    decreases MAX_DEPTH - |f.chain|, 0, n
  {
    if n == 0 then []
    else
      var a := w.calls(f)[n - 1];
      Nested(w, f, n - 1) + (if Admits(w.reg, f, a) then Call(w, f, a, n - 1) else [])
  }

  /** One admitted call: its subject is resolved and revalidated first where the operation needs one. */
  function Call(w: World, f: Frame, a: Attempt, n: nat): seq<Frame>
    requires Admits(w.reg, f, a)
    decreases MAX_DEPTH - |f.chain|, 0, 0
  {
    if !SubjectOperation(a) then Executed(w, Child(f, a, Handling, a.unit, n))
    else
      var resolving := Child(f, a, Resolving, a.unit, n);
      var r := w.resolve(resolving);
      if !Acceptable(r, a.unit) then Executed(w, resolving)
      else
        var wrapped := Subject(a.unit, r.actor, r.scope);
        Executed(w, resolving) + Executed(w, Child(f, a, Revalidating, wrapped, n))
        + (if r.authorized then Executed(w, Child(f, a, Handling, wrapped, n)) else [])
  }

  // ---- What holds of every frame ----

  predicate Distinct(chain: seq<string>) {
    forall i, j | 0 <= i < j < |chain| :: chain[i] != chain[j]
  }

  /**
   * A frame is bound to its root: a chain without repetition, the root's transaction and installation, no mutation on a
   * snapshot.
   */
  ghost predicate Bound(w: World, root: Frame, f: Frame) {
    && 0 < |f.chain| <= MAX_DEPTH && Distinct(f.chain) && root.chain <= f.chain && f.chain[|f.chain| - 1] == f.operation
    && f.unit.Base() == root.unit.Base()
    && f.unit.ReadOnly() == root.unit.ReadOnly()
    && f.unit.scope.installation == root.unit.scope.installation
    && (root.unit.ReadOnly() && f.operation in w.reg ==> !w.reg[f.operation].mutation)
  }

  lemma ChildBound(w: World, root: Frame, f: Frame, a: Attempt, role: Role, unit: Unit, n: nat)
    requires Bound(w, root, f) && Admits(w.reg, f, a)
    requires unit == a.unit
             || (unit.Subject? && unit.inner == a.unit && unit.scope.installation == a.unit.scope.installation)
    ensures Bound(w, root, Child(f, a, role, unit, n))
  {
    var chain := f.chain + [a.operation];
    assert chain[|f.chain|] == a.operation;
  }

  /** All frames of a call tree are bound to its root. */
  lemma {:induction false} TreeBound(w: World, root: Frame, f: Frame)
    requires Bound(w, root, f)
    ensures forall g | g in Executed(w, f) :: Bound(w, root, g)
    decreases MAX_DEPTH - |f.chain|, 1, 0
  {
    NestedBound(w, root, f, |w.calls(f)|);
  }

  lemma {:induction false} NestedBound(w: World, root: Frame, f: Frame, n: nat)
    requires Bound(w, root, f) && n <= |w.calls(f)|
    ensures forall g | g in Nested(w, f, n) :: Bound(w, root, g)
    decreases MAX_DEPTH - |f.chain|, 0, n
  {
    if n > 0 {
      NestedBound(w, root, f, n - 1);
      var a := w.calls(f)[n - 1];
      if Admits(w.reg, f, a) {
        CallBound(w, root, f, a, n - 1);
      }
    }
  }

  lemma {:induction false} CallBound(w: World, root: Frame, f: Frame, a: Attempt, n: nat)
    requires Bound(w, root, f) && Admits(w.reg, f, a)
    ensures forall g | g in Call(w, f, a, n) :: Bound(w, root, g)
    decreases MAX_DEPTH - |f.chain|, 0, 0
  {
    ChildBound(w, root, f, a, Handling, a.unit, n);
    TreeBound(w, root, Child(f, a, Handling, a.unit, n));
    if SubjectOperation(a) {
      var resolving := Child(f, a, Resolving, a.unit, n);
      ChildBound(w, root, f, a, Resolving, a.unit, n);
      TreeBound(w, root, resolving);
      var r := w.resolve(resolving);
      if Acceptable(r, a.unit) {
        var wrapped := Subject(a.unit, r.actor, r.scope);
        ChildBound(w, root, f, a, Revalidating, wrapped, n);
        TreeBound(w, root, Child(f, a, Revalidating, wrapped, n));
        ChildBound(w, root, f, a, Handling, wrapped, n);
        TreeBound(w, root, Child(f, a, Handling, wrapped, n));
      }
    }
  }

  /** The frame a public or controller entry starts with: a write for a mutation, a snapshot otherwise. */
  ghost predicate IsRoot(w: World, f: Frame) {
    && f.chain == [f.operation] && f.role == Handling
    && (f.unit.ReadOnly() && f.operation in w.reg ==> !w.reg[f.operation].mutation)
  }

  /**
   * Whatever handlers and resolvers attempt, every root-to-leaf chain has distinct operations and at most 32 of them,
   * everything runs in the root's transaction and installation, and no mutation runs beneath a read snapshot.
   */
  lemma EveryHandlerBound(w: World, root: Frame, g: Frame)
    requires IsRoot(w, root) && g in Executed(w, root)
    ensures Bound(w, root, g) && |g.chain| <= 32
  {
    TreeBound(w, root, root);
  }

  // ---- Who called a frame, and under which authority it runs ----

  /** The callee is internal, lists the caller, and is asked for at its version. */
  predicate Listed(reg: Registry, a: Attempt) {
    && a.operation in reg && reg[a.operation].internal && a.caller in reg[a.operation].callers
    && (a.version == 0 || a.version == reg[a.operation].version)
  }

  /**
   * Frame g runs because frame f issued its n-th call. Resolving a subject and ordinary handling see the caller's own
   * unit; revalidating and handling a subject operation see that unit under the subject the owner resolved, in the same
   * installation, and the handler runs only under a subject whose authority still holds.
   */
  ghost predicate CalledBy(w: World, f: Frame, n: nat, g: Frame) {
    && n < |w.calls(f)|
    && var a := w.calls(f)[n];
       && Listed(w.reg, a) && a.unit == f.unit
       && g.operation == a.operation && g.chain == f.chain + [a.operation] && g.path == f.path + [n]
       && (if g.role == Resolving || !SubjectOperation(a) then g.unit == f.unit
           else
             var r := w.resolve(Child(f, a, Resolving, f.unit, n));
             && r.Resolved? && r.actor.principal != "" && r.scope.installation == f.unit.scope.installation
             && g.unit == Subject(f.unit, r.actor, r.scope)
             && (g.role == Handling ==> r.authorized))
  }

  ghost predicate HasParent(w: World, frames: seq<Frame>, g: Frame) {
    exists f, n: nat :: f in frames && CalledBy(w, f, n, g)
  }

  lemma ParentKept(w: World, frames: seq<Frame>, more: seq<Frame>, g: Frame)
    requires HasParent(w, frames, g) && forall f | f in frames :: f in more
    ensures HasParent(w, more, g)
  {
    var f, n: nat :| f in frames && CalledBy(w, f, n, g);
    assert f in more;
  }

  /**
   * Every frame but the top one was called by another frame of the tree that its operation lists as a caller, on that
   * frame's unit or on that unit under its resolved and still authorized subject.
   */
  lemma {:induction false} TreePinned(w: World, f: Frame, g: Frame)
    requires |f.chain| <= MAX_DEPTH && g in Executed(w, f)
    ensures g == f || HasParent(w, Executed(w, f), g)
    decreases MAX_DEPTH - |f.chain|, 1, 0
  {
    if g != f {
      NestedPinned(w, f, |w.calls(f)|, g);
      ParentKept(w, [f] + Nested(w, f, |w.calls(f)|), Executed(w, f), g);
    }
  }

  lemma {:induction false} NestedPinned(w: World, f: Frame, n: nat, g: Frame)
    requires |f.chain| <= MAX_DEPTH && n <= |w.calls(f)| && g in Nested(w, f, n)
    ensures HasParent(w, [f] + Nested(w, f, n), g)
    decreases MAX_DEPTH - |f.chain|, 0, n
  {
    var a := w.calls(f)[n - 1];
    if g in Nested(w, f, n - 1) {
      NestedPinned(w, f, n - 1, g);
      ParentKept(w, [f] + Nested(w, f, n - 1), [f] + Nested(w, f, n), g);
    } else {
      CallPinned(w, f, n - 1, g);
      ParentKept(w, [f] + Call(w, f, a, n - 1), [f] + Nested(w, f, n), g);
    }
  }

  lemma {:induction false} CallPinned(w: World, f: Frame, n: nat, g: Frame)
    requires n < |w.calls(f)| && Admits(w.reg, f, w.calls(f)[n]) && g in Call(w, f, w.calls(f)[n], n)
    ensures HasParent(w, [f] + Call(w, f, w.calls(f)[n], n), g)
    decreases MAX_DEPTH - |f.chain|, 0, 0
  {
    var a := w.calls(f)[n];
    var top: Frame;
    if !SubjectOperation(a) {
      top := Child(f, a, Handling, a.unit, n);
    } else {
      var resolving := Child(f, a, Resolving, a.unit, n);
      var r := w.resolve(resolving);
      top := resolving;
      if Acceptable(r, a.unit) && g !in Executed(w, resolving) {
        var wrapped := Subject(a.unit, r.actor, r.scope);
        top := if g in Executed(w, Child(f, a, Revalidating, wrapped, n)) then Child(f, a, Revalidating, wrapped, n)
          else Child(f, a, Handling, wrapped, n);
      }
    }
    assert g in Executed(w, top) && CalledBy(w, f, n, top);
    TreePinned(w, top, g);
    if g == top {
      assert f in [f] + Call(w, f, a, n);
    } else {
      ParentKept(w, Executed(w, top), [f] + Call(w, f, a, n), g);
    }
  }

  /** Public operations and operations that list no caller never run nested, whatever handlers attempt. */
  lemma UnlistedNeverNested(w: World, root: Frame, g: Frame)
    requires IsRoot(w, root) && g in Executed(w, root) && g != root
    ensures g.operation in w.reg && w.reg[g.operation].internal && w.reg[g.operation].callers != []
  {
    TreePinned(w, root, g);
    var f, n: nat :| f in Executed(w, root) && CalledBy(w, f, n, g);
    assert w.calls(f)[n].caller in w.reg[g.operation].callers;
  }

  /**
   * The effect operations are never handled nested but under a resolved subject, and neither is effect preparation when
   * only execution may call it.
   */
  lemma EffectsNeedSubject(w: World, root: Frame, g: Frame)
    requires IsRoot(w, root) && g in Executed(w, root) && g != root && g.role == Handling
    requires g.operation in {"_effects.admit", "_effects.claim", "_effects.reconciliation.prepare"}
             || (g.operation == "_effects.prepare" && g.operation in w.reg
                 && w.reg[g.operation].callers == ["execution"])
    ensures g.unit.Subject? && g.unit.actor.principal != ""
  {
    TreePinned(w, root, g);
    var f, n: nat :| f in Executed(w, root) && CalledBy(w, f, n, g);
    assert w.calls(f)[n].caller in w.reg[g.operation].callers;
  }

  // ---- What the gate lets through does run ----

  lemma {:induction false} FirstRuns(w: World, f: Frame)
    requires |f.chain| <= MAX_DEPTH
    ensures f in Executed(w, f)
  {
    assert Executed(w, f)[0] == f;
  }

  lemma {:induction false} NestedHolds(w: World, f: Frame, n: nat, m: nat)
    requires |f.chain| <= MAX_DEPTH && n < m <= |w.calls(f)| && Admits(w.reg, f, w.calls(f)[n])
    ensures forall g | g in Call(w, f, w.calls(f)[n], n) :: g in Nested(w, f, m)
    decreases m
  {
    if n < m - 1 {
      NestedHolds(w, f, n, m - 1);
    }
  }

  /**
   * A call of a running frame that is listed, joins the frame's unit, repeats no operation of the chain,
     stays within the
   * depth and does not mutate under a snapshot does run: it is handled, or its subject is resolved first and it is then
   * handled under that subject if its authority holds.
   */
  lemma ListedRuns(w: World, f: Frame, n: nat)
    requires 0 < |f.chain| < MAX_DEPTH && n < |w.calls(f)|
    requires var a := w.calls(f)[n];
             && Listed(w.reg, a) && a.unit == f.unit && a.operation !in f.chain
             && (a.unit.ReadOnly() ==> !w.reg[a.operation].mutation)
    ensures var a := w.calls(f)[n];
            && Child(f, a, if SubjectOperation(a) then Resolving else Handling, f.unit, n) in Executed(w, f)
            && var r := w.resolve(Child(f, a, Resolving, f.unit, n));
               SubjectOperation(a) && r.Resolved? && r.actor.principal != "" && r.authorized
               && r.scope.installation == f.unit.scope.installation ==>
                 Child(f, a, Handling, Subject(f.unit, r.actor, r.scope), n) in Executed(w, f)
  {
    var a := w.calls(f)[n];
    FirstRuns(w, Child(f, a, Handling, f.unit, n));
    FirstRuns(w, Child(f, a, Resolving, f.unit, n));
    var r := w.resolve(Child(f, a, Resolving, f.unit, n));
    if r.Resolved? {
      FirstRuns(w, Child(f, a, Handling, Subject(f.unit, r.actor, r.scope), n));
    }
    NestedHolds(w, f, n, |w.calls(f)|);
  }

  /** And what runs beneath a frame of a tree belongs to the tree. */
  lemma {:induction false} SubTree(w: World, f: Frame, g: Frame, h: Frame)
    requires |f.chain| <= MAX_DEPTH && g in Executed(w, f) && |g.chain| <= MAX_DEPTH && h in Executed(w, g)
    ensures h in Executed(w, f)
    decreases MAX_DEPTH - |f.chain|, 1, 0
  {
    if g != f {
      SubNested(w, f, |w.calls(f)|, g, h);
    }
  }

  lemma {:induction false} SubNested(w: World, f: Frame, n: nat, g: Frame, h: Frame)
    requires |f.chain| <= MAX_DEPTH && n <= |w.calls(f)| && g in Nested(w, f, n) && |g.chain| <= MAX_DEPTH
             && h in Executed(w, g)
    ensures h in Nested(w, f, n)
    decreases MAX_DEPTH - |f.chain|, 0, n
  {
    var a := w.calls(f)[n - 1];
    if g in Nested(w, f, n - 1) {
      SubNested(w, f, n - 1, g, h);
    } else {
      SubCall(w, f, a, n - 1, g, h);
    }
  }

  lemma {:induction false} SubCall(w: World, f: Frame, a: Attempt, n: nat, g: Frame, h: Frame)
    requires Admits(w.reg, f, a) && g in Call(w, f, a, n) && |g.chain| <= MAX_DEPTH && h in Executed(w, g)
    ensures h in Call(w, f, a, n)
    decreases MAX_DEPTH - |f.chain|, 0, 0
  {
    if !SubjectOperation(a) {
      SubTree(w, Child(f, a, Handling, a.unit, n), g, h);
    } else {
      var resolving := Child(f, a, Resolving, a.unit, n);
      var r := w.resolve(resolving);
      if g in Executed(w, resolving) {
        SubTree(w, resolving, g, h);
      } else {
        var wrapped := Subject(a.unit, r.actor, r.scope);
        if g in Executed(w, Child(f, a, Revalidating, wrapped, n)) {
          SubTree(w, Child(f, a, Revalidating, wrapped, n), g, h);
        } else {
          SubTree(w, Child(f, a, Handling, wrapped, n), g, h);
        }
      }
    }
  }

  /** So every such call of every frame of a tree runs in the tree. */
  lemma EveryListedRuns(w: World, root: Frame, f: Frame, n: nat)
    requires IsRoot(w, root) && f in Executed(w, root) && |f.chain| < MAX_DEPTH && n < |w.calls(f)|
    requires var a := w.calls(f)[n];
             && Listed(w.reg, a) && a.unit == f.unit && a.operation !in f.chain
             && (a.unit.ReadOnly() ==> !w.reg[a.operation].mutation)
    ensures var a := w.calls(f)[n];
            Child(f, a, if SubjectOperation(a) then Resolving else Handling, f.unit, n) in Executed(w, root)
  {
    EveryHandlerBound(w, root, f);
    ListedRuns(w, f, n);
    var a := w.calls(f)[n];
    SubTree(w, root, f, Child(f, a, if SubjectOperation(a) then Resolving else Handling, f.unit, n));
  }
}
