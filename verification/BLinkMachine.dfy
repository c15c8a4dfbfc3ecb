/**
 The concurrent B-link tree as a step machine.  Each step of a thread is one access
 to shared state: a node read, a node or pointer write, taking or releasing one node
 lock, one append to the left-edge list, or one synchronous listener call.

 `low` and `level` in the tree are history variables too: no step branches on them.
 */
module BLinkMachine {
  import opened Basics
  import opened BLinkTree

  type Tid = nat

  datatype Op =
    | Get(key: Key)
    | Put(key: Key, value: Value, onlyIfAbsent: bool)
    | Remove(key: Key, expected: Option<Value>)
    | Replace(key: Key, expected: Option<Value>, value: Value)

  // ---------- the sequential meaning of an operation ----------

  predicate Mutates(op: Op, was: Option<Value>) {
    match op
    case Get(_) => false
    case Put(_, _, onlyIfAbsent) => was.None? || !onlyIfAbsent
    case Remove(_, expected) => was.Some? && (expected.None? || expected == was)
    case Replace(_, expected, _) => was.Some? && (expected.None? || expected == was)
  }

  function After(op: Op, was: Option<Value>): Option<Value> {
    if !Mutates(op, was) then was
    else if op.Remove? then None
    else if op.Get? then was
    else Some(op.value)
  }

  /** What the caller gets back when the operation meets `was` under its key. */
  function Reply(op: Op, was: Option<Value>): Option<Value> {
    match op
    case Get(_) => was
    case Put(_, _, _) => was
    case Remove(_, _) => if Mutates(op, was) then was else None
    case Replace(_, _, _) => if Mutates(op, was) then was else None
  }

  /** What each operation is for: its key goes from `was` to `now` and its caller gets `res`. */
  ghost predicate Performs(op: Op, was: Option<Value>, now: Option<Value>, res: Option<Value>) {
    match op
    case Get(_) => res == was && now == was
    case Put(_, value, onlyIfAbsent) => res == was && now == if was.Some? && onlyIfAbsent then was else Some(value)
    case Remove(_, expected) =>
      if was.Some? && (expected.None? || expected == was) then res == was && now == None else res == None && now == was
    case Replace(_, expected, value) =>
      if was.Some? && (expected.None? || expected == was) then res == was && now == Some(value) else res == None && now == was
  }

  /** The listeners hear of a put that stores and of a removal or replacement that succeeds. */
  ghost predicate Reported(op: Op, was: Option<Value>, res: Option<Value>) {
    match op
    case Get(_) => false
    case Put(_, _, onlyIfAbsent) => !(was.Some? && onlyIfAbsent)
    case _ => res.Some?
  }

  /** The code's decisions are what the operations are for. */
  lemma PerformsIs(op: Op, was: Option<Value>, now: Option<Value>, res: Option<Value>)
    ensures Performs(op, was, now, res) <==> now == After(op, was) && res == Reply(op, was)
    ensures res == Reply(op, was) ==> (Reported(op, was, res) <==> Mutates(op, was))
  {
  }

  /** A change of one key, as handed to the synchronous listeners. */
  datatype Event = Event(key: Key, was: Option<Value>, now: Option<Value>)

  /** A published change whose listeners `who` has still to call. */
  datatype Hot = Hot(who: Tid, event: Event)

  /** A separator on its way up: `right` was split off `left`; `root` if `left` was the root. */
  datatype Carry = Carry(op: Op, left: Recid, right: Recid, sep: Key, root: bool, stack: seq<Recid>, level: nat)

  datatype Pc =
    | Idle
    | Begin(op: Op)
    | Reading(op: Op, cur: Recid)
    | Descending(op: Op, cur: Recid, stack: seq<Recid>)
    | LeafWait(op: Op, cur: Recid, stack: seq<Recid>)
    | LeafHeld(op: Op, cur: Recid, stack: seq<Recid>)
    | LeafMove(op: Op, cur: Recid, next: Recid, stack: seq<Recid>)
    | LeafOwned(op: Op, cur: Recid, n: Node, stack: seq<Recid>)
    | LeafStore(op: Op, cur: Recid, n: Node, root: bool, stack: seq<Recid>)
    | LeafPublish(op: Op, cur: Recid, n: Node, root: bool, q: Recid, stack: seq<Recid>)
    | Firing(op: Op, cur: Recid, event: Event, carry: Option<Carry>)
    | LeafFree(op: Op, cur: Recid, res: Option<Value>, carry: Option<Carry>)
    | Rising(c: Carry)
    | DirWait(c: Carry, cur: Recid)
    | DirHeld(c: Carry, cur: Recid)
    | DirMove(c: Carry, cur: Recid, next: Recid)
    | DirOwned(c: Carry, cur: Recid, n: Node)
    | DirStore(c: Carry, cur: Recid, n: Node, root: bool)
    | DirPublish(c: Carry, cur: Recid, n: Node, root: bool, q: Recid)
    | DirFree(op: Op, cur: Recid, carry: Option<Carry>)
    | RootWait(c: Carry)
    | RootStore(c: Carry)
    | RootPublish(c: Carry, q: Recid)
    | RootEdge(c: Carry, q: Recid)
    | RootFree(c: Carry)
    | Done(op: Op, res: Option<Value>)
    | Fault

  /** Shared state. The fields after `locks` are history variables. */
  datatype Shared = Shared(
    tree: Tree,
    max: nat,                  // largest number of keys in a node
    rootPtr: Recid,            // recid of the root pointer record
    root: Recid,               // its content
    edges: seq<Recid>,         // leftmost node of each level, leaves first
    locks: map<Recid, Tid>,
    roots: set<Recid>,         // every root ever published
    pend: map<Recid, Tid>,     // stored nodes that no directory names yet, and who stored them
    hidden: map<Recid, Tid>,   // split-off leaves whose left half is still locked by the splitter
    hot: map<Key, Hot>,        // keys with a published change whose listeners have not run yet
    growing: Option<Tid>,      // the thread that has split the root and not replaced it yet
    appending: bool,           // a new root is published and its left edge is not
    pubs: seq<Event>,          // published changes
    events: seq<Event>)        // listener calls

  datatype State = State(v: Shared, pcs: map<Tid, Pc>)

  /** What the environment decides: the operation a thread begins, or the recid a store hands out. */
  datatype Choice = Choice(op: Op, recid: Recid)

  // ---------- the local decisions of the code ----------

  datatype Verdict = Go(next: Recid) | Stop(res: Option<Value>)

  /** One push-down read of a node by a lookup. */
  function ReadNode(n: Node, key: Key): Verdict {
    var i := Rank(n.keys, key);
    if n.Dir? then
      (if i >= |n.children| then Go(n.link) else Go(n.children[i]))
    else if FoundAt(n.keys, key, i) && i < |n.vals| then Stop(Some(n.vals[i]))
    else if i >= |n.keys| && n.link != 0 then Go(n.link)
    else Stop(None)
  }

  predicate BeyondLeaf(n: Node, key: Key) {
    !n.right && n.Leaf? && n.fence.Some? && n.fence.value < key
  }

  predicate BeyondDir(n: Node, key: Key) {
    !n.right && Rank(n.keys, key) == |n.keys|
  }

  /** Keys and values of leaf `n` after a mutating `op`. */
  function NewKeys(op: Op, n: Node): seq<Key> {
    var i := Rank(n.keys, op.key);
    if !FoundAt(n.keys, op.key, i) then InsertAt(n.keys, i, op.key)
    else if op.Remove? then DeleteAt(n.keys, i)
    else n.keys
  }

  function NewVals(op: Op, n: Node): seq<Value>
    requires n.Leaf? && |n.vals| == |n.keys|
  {
    var i := Rank(n.keys, op.key);
    if op.Get? then n.vals
    else if !FoundAt(n.keys, op.key, i) then (if op.Remove? then n.vals else InsertAt(n.vals, i, op.value))
    else if op.Remove? then DeleteAt(n.vals, i)
    else n.vals[i := op.value]
  }

  predicate Wellformed(n: Node) {
    n.Leaf? && |n.vals| == |n.keys|
  }

  predicate RootShaped(n: Node) {
    n.left && n.right
  }

  predicate FreshRecid(v: Shared, q: Recid) {
    q != 0 && q !in v.tree.nodes && q != v.rootPtr
  }

  function Last(s: seq<Recid>): Recid requires s != [] { s[|s| - 1] }
  function Init(s: seq<Recid>): seq<Recid> requires s != [] { s[..|s| - 1] }

  // ---------- steps ----------

  /** Whether a thread at `pc` can take its next step. */
  predicate CanMove(v: Shared, pc: Pc, x: Choice) {
    match pc
    case Begin(_) => x.recid in v.roots
    case LeafWait(_, cur, _) => cur !in v.locks
    case LeafStore(_, _, _, _, _) => FreshRecid(v, x.recid)
    case Rising(c) => c.root || c.stack != [] || c.level < |v.edges|
    case DirWait(_, cur) => cur !in v.locks
    case DirStore(_, _, _, _) => FreshRecid(v, x.recid)
    case RootWait(_) => v.rootPtr !in v.locks
    case RootStore(_) => FreshRecid(v, x.recid)
    case Fault => false
    case _ => true
  }

  predicate Can(s: State, t: Tid, x: Choice) {
    t in s.pcs && CanMove(s.v, s.pcs[t], x)
  }

  function Next(s: State, t: Tid, x: Choice): State
    requires Can(s, t, x)
  {
    var m := Step(s.v, t, s.pcs[t], x);
    State(m.v, s.pcs[t := m.pc])
  }

  /** The new program counter of a thread and the shared state it leaves behind. */
  datatype Move = Move(pc: Pc, v: Shared)

  function Step(v: Shared, t: Tid, pc: Pc, x: Choice): Move
    requires CanMove(v, pc, x)
  {
    match pc
    case Idle => Move(Begin(x.op), v)
    case Begin(op) => Move(if op.Get? then Reading(op, x.recid) else Descending(op, x.recid, []), v)
    case Reading(op, cur) => StepReading(v, t, op, cur)
    case Descending(op, cur, stack) => StepDescending(v, t, op, cur, stack)
    case LeafWait(op, cur, stack) => Move(LeafHeld(op, cur, stack), v.(locks := v.locks[cur := t]))
    case LeafHeld(op, cur, stack) => StepLeafHeld(v, t, op, cur, stack)
    case LeafMove(op, cur, next, stack) => Move(LeafWait(op, next, stack), v.(locks := v.locks - {cur}))
    case LeafOwned(op, cur, n, stack) => StepLeafOwned(v, t, op, cur, n, stack)
    case LeafStore(op, cur, n, root, stack) => StepLeafStore(v, t, op, cur, n, root, stack, x.recid)
    case LeafPublish(op, cur, n, root, q, stack) => StepLeafPublish(v, t, op, cur, n, root, q, stack)
    case Firing(op, cur, event, carry) =>
      Move(LeafFree(op, cur, Reply(op, event.was), carry),
        v.(events := v.events + [event], hot := v.hot - {event.key}))
    case LeafFree(op, cur, res, carry) => StepLeafFree(v, t, op, cur, res, carry)
    case Rising(c) => StepRising(v, t, c)
    case DirWait(c, cur) => Move(DirHeld(c, cur), v.(locks := v.locks[cur := t]))
    case DirHeld(c, cur) => StepDirHeld(v, t, c, cur)
    case DirMove(c, cur, next) => Move(DirWait(c, next), v.(locks := v.locks - {cur}))
    case DirOwned(c, cur, n) => StepDirOwned(v, t, c, cur, n)
    case DirStore(c, cur, n, root) => StepDirStore(v, t, c, cur, n, root, x.recid)
    case DirPublish(c, cur, n, root, q) => StepDirPublish(v, t, c, cur, n, root, q)
    case DirFree(op, cur, carry) =>
      Move(if carry.Some? then Rising(carry.value) else Done(op, None), v.(locks := v.locks - {cur}))
    case RootWait(c) => Move(RootStore(c), v.(locks := v.locks[v.rootPtr := t]))
    case RootStore(c) => StepRootStore(v, t, c, x.recid)
    case RootPublish(c, q) => StepRootPublish(v, t, c, q)
    case RootEdge(c, q) =>
      if |v.edges| != c.level then Move(Fault, v)
      else Move(RootFree(c), v.(edges := v.edges + [q], appending := false))
    case RootFree(c) => Move(Done(c.op, None), v.(locks := v.locks - {v.rootPtr}))
    case Done(_, _) => Move(Idle, v)
    case Fault => Move(Fault, v)
  }

  function StepReading(v: Shared, t: Tid, op: Op, cur: Recid): Move {
    if cur !in v.tree.nodes then Move(Fault, v)
    else match ReadNode(v.tree.nodes[cur], op.key)
         case Go(next) => Move(if next == 0 then Done(op, None) else Reading(op, next), v)
         case Stop(res) => Move(Done(op, res), v)
  }

  /** Unlocked descent; only a put remembers the directories it came through. */
  function StepDescending(v: Shared, t: Tid, op: Op, cur: Recid, stack: seq<Recid>): Move {
    if cur !in v.tree.nodes then Move(Fault, v)
    else
      var n := v.tree.nodes[cur];
      if n.Leaf? then Move(LeafWait(op, cur, stack), v)
      else
        var i := Rank(n.keys, op.key);
        if i >= |n.children| then Move(Descending(op, n.link, stack), v)
        else Move(Descending(op, n.children[i], if op.Put? then stack + [cur] else stack), v)
  }

  function StepLeafHeld(v: Shared, t: Tid, op: Op, cur: Recid, stack: seq<Recid>): Move {
    if cur !in v.tree.nodes then Move(Fault, v)
    else
      var n := v.tree.nodes[cur];
      if BeyondLeaf(n, op.key) then Move(LeafMove(op, cur, n.link, stack), v)
      else Move(LeafOwned(op, cur, n, stack), v)
  }

  function StepLeafOwned(v: Shared, t: Tid, op: Op, cur: Recid, n: Node, stack: seq<Recid>): Move {
    if !Wellformed(n) || cur !in v.tree.nodes || !v.tree.nodes[cur].Leaf? then Move(Fault, v)
    else
      var was := LeafGet(n, op.key);
      if !Mutates(op, was) then Move(LeafFree(op, cur, Reply(op, was), None), v)
      else if |NewKeys(op, n)| > v.max then
        Move(LeafStore(op, cur, n, RootShaped(n) && v.root == cur, stack), v)
      else
        var e := Event(op.key, was, After(op, was));
        Move(Firing(op, cur, e, None),
          v.(tree := EditLeaf(v.tree, cur, NewKeys(op, n), NewVals(op, n)),
            pubs := v.pubs + [e], hot := v.hot[op.key := Hot(t, e)]))
  }

  /** Store the right half; nothing links to it yet. */
  function StepLeafStore(v: Shared, t: Tid, op: Op, cur: Recid, n: Node, root: bool, stack: seq<Recid>, q: Recid): Move {
    if !Wellformed(n) || |NewKeys(op, n)| != |NewVals(op, n)| || |NewKeys(op, n)| < 2 then Move(Fault, v)
    else
      Move(LeafPublish(op, cur, n, root, q, stack),
        v.(tree := v.tree.(nodes := v.tree.nodes[q := LeafRight(n, NewKeys(op, n), NewVals(op, n))]),
          pend := v.pend[q := t]))
  }

  /** Republish the left half with its link to the right half: the split becomes searchable. */
  function StepLeafPublish(v: Shared, t: Tid, op: Op, cur: Recid, n: Node, root: bool, q: Recid, stack: seq<Recid>): Move {
    if !Wellformed(n) || |NewKeys(op, n)| != |NewVals(op, n)| || |NewKeys(op, n)| < 2 || cur !in v.tree.level
    then Move(Fault, v)
    else
      var keys, vals := NewKeys(op, n), NewVals(op, n);
      var was := LeafGet(n, op.key);
      var e := Event(op.key, was, After(op, was));
      var c := Carry(op, cur, q, SplitKey(keys), root, stack, 1);
      Move(Firing(op, cur, e, Some(c)),
        v.(tree := PublishSplit(v.tree, cur, LeafLeft(n, keys, vals, q), q, SplitKey(keys)),
          hidden := v.hidden[q := t], hot := v.hot[op.key := Hot(t, e)], pubs := v.pubs + [e],
          growing := if root then Some(t) else v.growing))
  }

  function StepLeafFree(v: Shared, t: Tid, op: Op, cur: Recid, res: Option<Value>, carry: Option<Carry>): Move {
    match carry
    case None => Move(Done(op, res), v.(locks := v.locks - {cur}))
    case Some(c) => Move(Rising(c), v.(locks := v.locks - {cur}, hidden := v.hidden - {c.right}))
  }

  /** Grow a root, or go to the remembered parent, or to the left edge of the level above. */
  function StepRising(v: Shared, t: Tid, c: Carry): Move
    requires c.root || c.stack != [] || c.level < |v.edges|
  {
    if c.root then Move(RootWait(c), v)
    else if c.stack == [] then Move(DirWait(c, v.edges[c.level]), v)
    else Move(DirWait(c.(stack := Init(c.stack)), Last(c.stack)), v)
  }

  function StepDirHeld(v: Shared, t: Tid, c: Carry, cur: Recid): Move {
    if cur !in v.tree.nodes then Move(Fault, v)
    else
      var n := v.tree.nodes[cur];
      if BeyondDir(n, c.sep) then Move(DirMove(c, cur, n.link), v)
      else Move(DirOwned(c, cur, n), v)
  }

  /** A duplicate separator or a leaf here is the code's corruption error. */
  function StepDirOwned(v: Shared, t: Tid, c: Carry, cur: Recid, n: Node): Move {
    if n.Leaf? || Found(n.keys, c.sep) || Rank(n.keys, c.sep) >= |n.children| then Move(Fault, v)
    else if |n.keys| + 1 <= v.max then
      Move(DirFree(c.op, cur, None),
        v.(tree := EditDir(v.tree, cur, WithChild(n, c.sep, c.right)), pend := v.pend - {c.right}))
    else Move(DirStore(c, cur, n, RootShaped(n) && v.root == cur), v)
  }

  predicate Splittable(n: Node, sep: Key) {
    && n.Dir? && Rank(n.keys, sep) < |n.children|
    && 2 <= |n.keys| + 1 <= |n.children| + 1
  }

  function StepDirStore(v: Shared, t: Tid, c: Carry, cur: Recid, n: Node, root: bool, q: Recid): Move {
    if !Splittable(n, c.sep) then Move(Fault, v)
    else
      Move(DirPublish(c, cur, n, root, q),
        v.(tree := v.tree.(nodes := v.tree.nodes[q := DirRight(WithChild(n, c.sep, c.right))]),
          pend := v.pend[q := t]))
  }

  function StepDirPublish(v: Shared, t: Tid, c: Carry, cur: Recid, n: Node, root: bool, q: Recid): Move {
    if !Splittable(n, c.sep) || cur !in v.tree.level then Move(Fault, v)
    else
      var w := WithChild(n, c.sep, c.right);
      var c' := Carry(c.op, cur, q, SplitKey(w.keys), root, c.stack, c.level + 1);
      Move(DirFree(c.op, cur, Some(c')),
        v.(tree := PublishSplit(v.tree, cur, DirLeft(w, q), q, SplitKey(w.keys)),
          pend := v.pend - {c.right},
          growing := if root then Some(t) else v.growing))
  }

  function StepRootStore(v: Shared, t: Tid, c: Carry, q: Recid): Move {
    Move(RootPublish(c, q),
      v.(tree := v.tree.(nodes := v.tree.nodes[q := RootNode(c.left, c.right, c.sep)]), pend := v.pend[q := t]))
  }

  function StepRootPublish(v: Shared, t: Tid, c: Carry, q: Recid): Move {
    Move(RootEdge(c, q),
      v.(tree := PublishRoot(v.tree, q, c.level), root := q, roots := v.roots + {q},
        pend := v.pend - {q, c.right}, growing := None, appending := true))
  }
}
