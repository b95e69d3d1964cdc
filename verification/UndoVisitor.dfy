/**
  * The permission visitor of the authority checks: a list of visited permissions and a stack of
  * saved list lengths, in place of a stack of saved lists.
  */
module UndoVisitor {
  import opened Wrappers

  datatype Op<T> = Visit(permission: T) | Repeat(permission: T) | PushUndo | PopUndo | SquashUndo

  /** What the visitor holds. */
  datatype Marks<T> = Marks(permissions: seq<T>, sizes: seq<nat>)

  /** What it stands for: the list and every list saved so far. */
  datatype Snapshots<T> = Snapshots(current: seq<T>, saved: seq<seq<T>>)

  function Last<T>(s: seq<T>): T
    requires s != []
  {
    s[|s| - 1]
  }

  function Init<T>(s: seq<T>): seq<T>
    requires s != []
  {
    s[..|s| - 1]
  }

  /** One call on the visitor; None where its own assertions fail. */
  function Step<T>(v: Marks<T>, op: Op<T>): Option<Marks<T>> {
    match op
    case Visit(x) => Some(v.(permissions := v.permissions + [x]))
    case Repeat(x) => Some(v)
    case PushUndo => Some(v.(sizes := v.sizes + [|v.permissions|]))
    case PopUndo =>
      if v.sizes != [] && Last(v.sizes) <= |v.permissions| then
        Some(Marks(v.permissions[..Last(v.sizes)], Init(v.sizes)))
      else None
    case SquashUndo => if v.sizes != [] then Some(v.(sizes := Init(v.sizes))) else None
  }

  /** The same call on full snapshots; None where there is nothing saved. */
  function SnapshotStep<T>(s: Snapshots<T>, op: Op<T>): Option<Snapshots<T>> {
    match op
    case Visit(x) => Some(s.(current := s.current + [x]))
    case Repeat(x) => Some(s)
    case PushUndo => Some(s.(saved := s.saved + [s.current]))
    case PopUndo => if s.saved != [] then Some(Snapshots(Last(s.saved), Init(s.saved))) else None
    case SquashUndo => if s.saved != [] then Some(s.(saved := Init(s.saved))) else None
  }

  /** Every saved length cuts the list down to the list saved with it. */
  ghost predicate Refines<T>(v: Marks<T>, s: Snapshots<T>) {
    && v.permissions == s.current
    && |v.sizes| == |s.saved|
    && (forall i :: 0 <= i < |v.sizes| ==> v.sizes[i] <= |v.permissions| && s.saved[i] == v.permissions[..v.sizes[i]])
    && (forall i, j :: 0 <= i < j < |v.sizes| ==> v.sizes[i] <= v.sizes[j])
  }

  lemma StepRefines<T>(v: Marks<T>, s: Snapshots<T>, op: Op<T>)
    requires Refines(v, s)
    ensures Step(v, op).Some? <==> SnapshotStep(s, op).Some?
    ensures Step(v, op).Some? ==> Refines(Step(v, op).value, SnapshotStep(s, op).value)
  {
    if op.Visit? {
      forall i | 0 <= i < |v.sizes|
        ensures (v.permissions + [op.permission])[..v.sizes[i]] == s.saved[i]
      {
        assert (v.permissions + [op.permission])[..v.sizes[i]] == v.permissions[..v.sizes[i]];
      }
    } else if op.PopUndo? && v.sizes != [] {
      var n := Last(v.sizes);
      forall i | 0 <= i < |v.sizes| - 1
        ensures v.sizes[i] <= n && v.permissions[..n][..v.sizes[i]] == s.saved[i]
      {
        assert v.permissions[..n][..v.sizes[i]] == v.permissions[..v.sizes[i]];
      }
    }
  }

  function Run<T>(v: Marks<T>, ops: seq<Op<T>>): Option<Marks<T>>
    decreases |ops|
  {
    if ops == [] then Some(v)
    else match Step(v, ops[0])
      case None => None
      case Some(next) => Run(next, ops[1..])
  }

  function SnapshotRun<T>(s: Snapshots<T>, ops: seq<Op<T>>): Option<Snapshots<T>>
    decreases |ops|
  {
    if ops == [] then Some(s)
    else match SnapshotStep(s, ops[0])
      case None => None
      case Some(next) => SnapshotRun(next, ops[1..])
  }

  /** Any sequence of calls: both fail together, and until then the lists are the same. */
  lemma {:induction false} RunRefines<T>(v: Marks<T>, s: Snapshots<T>, ops: seq<Op<T>>)
    requires Refines(v, s)
    ensures Run(v, ops).Some? <==> SnapshotRun(s, ops).Some?
    ensures Run(v, ops).Some? ==> Refines(Run(v, ops).value, SnapshotRun(s, ops).value)
    decreases |ops|
  {
    if ops != [] {
      StepRefines(v, s, ops[0]);
      if Step(v, ops[0]).Some? {
        RunRefines(Step(v, ops[0]).value, SnapshotStep(s, ops[0]).value, ops[1..]);
      }
    }
  }

  /** The calls a visitor gets are balanced: what is pushed is later popped or squashed. */
  datatype Script<T> =
    | Done
    | Item(permission: T, rest: Script<T>)
    | Scope(body: Script<T>, keep: bool, rest: Script<T>)

  function Calls<T>(script: Script<T>): seq<Op<T>> {
    match script
    case Done => []
    case Item(x, rest) => [Visit(x)] + Calls(rest)
    case Scope(body, keep, rest) =>
      [PushUndo] + Calls(body) + [if keep then SquashUndo else PopUndo] + Calls(rest)
  }

  /** What a script leaves behind: a popped scope nothing, a squashed scope all of its own. */
  function Kept<T>(script: Script<T>): seq<T> {
    match script
    case Done => []
    case Item(x, rest) => [x] + Kept(rest)
    case Scope(body, keep, rest) => (if keep then Kept(body) else []) + Kept(rest)
  }

  lemma {:induction false} RunConcat<T>(v: Marks<T>, a: seq<Op<T>>, b: seq<Op<T>>)
    ensures Run(v, a + b) == match Run(v, a) case None => None case Some(next) => Run(next, b)
    decreases |a|
  {
    if a == [] {
      assert a + b == b;
    } else {
      assert (a + b)[1..] == a[1..] + b;
      if Step(v, a[0]).Some? {
        RunConcat(Step(v, a[0]).value, a[1..], b);
      }
    }
  }

  /** Closing a scope whose body added some permissions. */
  lemma CloseScope<T>(v: Marks<T>, added: seq<T>, keep: bool)
    ensures Step(Marks(v.permissions + added, v.sizes + [|v.permissions|]), if keep then SquashUndo else PopUndo)
         == Some(Marks(v.permissions + (if keep then added else []), v.sizes))
  {
    assert Init(v.sizes + [|v.permissions|]) == v.sizes;
    assert (v.permissions + added)[..|v.permissions|] == v.permissions + [];
  }

  lemma RunThrough<T>(v: Marks<T>, a: seq<Op<T>>, inner: Marks<T>, op: Op<T>, after: Marks<T>, b: seq<Op<T>>)
    requires Run(v, a) == Some(inner) && Step(inner, op) == Some(after)
    ensures Run(v, a + ([op] + b)) == Run(after, b)
  {
    RunConcat(v, a, [op] + b);
    assert ([op] + b)[1..] == b;
  }

  lemma ScopeRuns<T>(v: Marks<T>, body: seq<Op<T>>, added: seq<T>, keep: bool, rest: seq<Op<T>>, more: seq<T>)
    requires Run(v.(sizes := v.sizes + [|v.permissions|]), body)
          == Some(Marks(v.permissions + added, v.sizes + [|v.permissions|]))
    requires Run(v.(permissions := v.permissions + (if keep then added else [])), rest)
          == Some(Marks(v.permissions + (if keep then added else []) + more, v.sizes))
    ensures Run(v, [PushUndo] + body + [if keep then SquashUndo else PopUndo] + rest)
         == Some(Marks(v.permissions + ((if keep then added else []) + more), v.sizes))
  {
    var open := v.(sizes := v.sizes + [|v.permissions|]);
    var close: Op<T> := if keep then SquashUndo else PopUndo;
    var kept := if keep then added else [];
    CloseScope(v, added, keep);
    RunThrough(open, body, Marks(v.permissions + added, open.sizes), close, v.(permissions := v.permissions + kept), rest);
    var calls := [PushUndo] + body + [close] + rest;
    assert calls[1..] == body + ([close] + rest);
    assert Step(v, PushUndo) == Some(open);
    assert v.permissions + kept + more == v.permissions + (kept + more);
  }

  /**
    * Balanced calls never fail an assertion, add to the list exactly what the script keeps, and
    * leave the stack as it was.
    */
  lemma {:induction false} ScriptMeaning<T>(v: Marks<T>, script: Script<T>)
    ensures Run(v, Calls(script)) == Some(Marks(v.permissions + Kept(script), v.sizes))
    decreases script
  {
    match script
    case Done =>
      assert v.permissions + [] == v.permissions;
    case Item(x, rest) =>
      var next := v.(permissions := v.permissions + [x]);
      ScriptMeaning(next, rest);
      assert Calls(script)[1..] == Calls(rest);
      assert v.permissions + [x] + Kept(rest) == v.permissions + Kept(script);
    case Scope(body, keep, rest) =>
      ScriptMeaning(v.(sizes := v.sizes + [|v.permissions|]), body);
      ScriptMeaning(v.(permissions := v.permissions + (if keep then Kept(body) else [])), rest);
      ScopeRuns(v, Calls(body), Kept(body), keep, Calls(rest), Kept(rest));
  }

  class PermissionVisitor<T> {
    var permissions: seq<T>
    var sizeStack: seq<nat>
    ghost var saved: seq<seq<T>>

    ghost predicate Valid()
      reads this
    {
      Refines(Marks(permissions, sizeStack), Snapshots(permissions, saved))
    }

    constructor ()
      ensures Valid() && permissions == [] && sizeStack == [] && saved == []
    {
      permissions, sizeStack, saved := [], [], [];
    }

    method Visit(permission: T)
      requires Valid()
      modifies this
      ensures Valid() && permissions == old(permissions) + [permission] && saved == old(saved)
      ensures Step(old(Marks(permissions, sizeStack)), Op.Visit(permission)) == Some(Marks(permissions, sizeStack))
    {
      StepRefines(Marks(permissions, sizeStack), Snapshots(permissions, saved), Op.Visit(permission));
      permissions := permissions + [permission];
    }

    method PushUndo()
      requires Valid()
      modifies this
      ensures Valid() && permissions == old(permissions) && saved == old(saved) + [permissions]
      ensures Step(old(Marks(permissions, sizeStack)), Op.PushUndo) == Some(Marks(permissions, sizeStack))
    {
      StepRefines(Marks(permissions, sizeStack), Snapshots(permissions, saved), Op.PushUndo);
      sizeStack := sizeStack + [|permissions|];
      saved := saved + [permissions];
    }

    /** Restores the list saved last; fails only when nothing is saved. */
    method PopUndo() returns (ok: bool)
      requires Valid()
      modifies this
      ensures ok == (old(saved) != []) && Valid()
      ensures if ok then permissions == Last(old(saved)) && saved == Init(old(saved))
              else permissions == old(permissions) && saved == old(saved)
      ensures Step(old(Marks(permissions, sizeStack)), Op.PopUndo)
           == if ok then Some(Marks(permissions, sizeStack)) else None
    {
      StepRefines(Marks(permissions, sizeStack), Snapshots(permissions, saved), Op.PopUndo);
      ok := |sizeStack| >= 1 && Last(sizeStack) <= |permissions|;
      if ok {
        permissions := permissions[..Last(sizeStack)];
        sizeStack := Init(sizeStack);
        saved := Init(saved);
      }
    }

    method SquashUndo() returns (ok: bool)
      requires Valid()
      modifies this
      ensures ok == (old(saved) != []) && Valid() && permissions == old(permissions)
      ensures saved == if ok then Init(old(saved)) else old(saved)
      ensures Step(old(Marks(permissions, sizeStack)), Op.SquashUndo)
           == if ok then Some(Marks(permissions, sizeStack)) else None
    {
      ok := |sizeStack| >= 1;
      if ok {
        StepRefines(Marks(permissions, sizeStack), Snapshots(permissions, saved), Op.SquashUndo);
        sizeStack := Init(sizeStack);
        saved := Init(saved);
      }
    }
  }
}
