/** The Python symbol walker (`parse_python`): an explicit-stack walk over a syntax tree that
    lists definitions, imports and scope-level variables with their lexical scopes. */
module Symbols {
  import opened Options

  const MAX_NODES := 40000
  const MAX_NAME := 512
  const MAX_QUALIFIED := 2048

  datatype Kind = Class | Function | Method | Import | Variable {
    predicate Definition() { Class? || Function? || Method? }
  }

  /** What the walker looks at in a node: definitions, imports (as bound names), assignments (the
      names they store to) and everything else. */
  datatype Shape =
    | Define(isClass: bool, name: string, decorators: seq<nat>)
    | Imports(names: seq<string>)
    | Assigns(targets: seq<string>)
    | Other

  datatype Tree = Node(shape: Shape, start: nat, end: nat, children: seq<Tree>)

  datatype Symbol = Symbol(name: string, qualified: string, kind: Kind, parent: Option<nat>, start: nat, end: nat)

  /** The walk so far, or the reason why the file falls back to plain text chunks. */
  datatype Walking = Going(symbols: seq<Symbol>, visited: nat) | NodeLimit | SymbolLimit

  function Lookup(symbols: seq<Symbol>, i: Option<nat>): Option<Symbol> {
    if i.Some? && i.value < |symbols| then Some(symbols[i.value]) else None
  }

  predicate InClass(symbols: seq<Symbol>, parent: Option<nat>) {
    Lookup(symbols, parent).Some? && Lookup(symbols, parent).value.kind == Class
  }

  function Prefix(symbols: seq<Symbol>, parent: Option<nat>): string {
    if Lookup(symbols, parent).Some? then Lookup(symbols, parent).value.qualified + "." else ""
  }

  function Least(x: nat, xs: seq<nat>): nat {
    if xs == [] then x else Least(if xs[0] < x then xs[0] else x, xs[1..])
  }

  /** A definition starts at its first decorator. */
  function FirstLine(t: Tree): nat {
    if t.shape.Define? then Least(t.start, t.shape.decorators) else t.start
  }

  function Tagged(names: seq<string>, kind: Kind): seq<(string, Kind)> {
    seq(|names|, i requires 0 <= i < |names| => (names[i], kind))
  }

  /** The names a node binds in its scope. Function definitions directly in a class are methods;
      assignments count at module and class level only. */
  function Names(t: Tree, symbols: seq<Symbol>, parent: Option<nat>): seq<(string, Kind)> {
    match t.shape
    case Define(isClass, name, _) => [(name, if isClass then Class else if InClass(symbols, parent) then Method else Function)]
    case Imports(names) => Tagged(names, Import)
    case Assigns(targets) => if parent.None? || InClass(symbols, parent) then Tagged(targets, Variable) else []
    case Other => []
  }

  function Entry(t: Tree, prefix: string, parent: Option<nat>, name: (string, Kind)): Symbol {
    Symbol(name.0, prefix + name.0, name.1, parent, FirstLine(t), t.end)
  }

  function Entries(t: Tree, prefix: string, parent: Option<nat>, names: seq<(string, Kind)>): seq<Symbol> {
    seq(|names|, i requires 0 <= i < |names| => Entry(t, prefix, parent, names[i]))
  }

  predicate TooLong(s: Symbol) {
    |s.name| > MAX_NAME || |s.qualified| > MAX_QUALIFIED
  }

  predicate AllFit(symbols: seq<Symbol>) {
    forall s | s in symbols :: !TooLong(s)
  }

  /** The symbols a node adds. */
  function Added(t: Tree, symbols: seq<Symbol>, parent: Option<nat>): seq<Symbol> {
    Entries(t, Prefix(symbols, parent), parent, Names(t, symbols, parent))
  }

  /** Only definitions open a scope: their children belong to the symbol just added. */
  function Scope(t: Tree, symbols: seq<Symbol>, parent: Option<nat>): Option<nat> {
    if t.shape.Define? then Some(|symbols|) else parent
  }

  // ---- The recursive preorder walk

  function Enter(t: Tree, parent: Option<nat>, w: Walking): Walking {
    if !w.Going? then w
    else if w.visited + 1 > MAX_NODES then NodeLimit
    else if !AllFit(Added(t, w.symbols, parent)) then SymbolLimit
    else Going(w.symbols + Added(t, w.symbols, parent), w.visited + 1)
  }

  function Walk(t: Tree, parent: Option<nat>, w: Walking): Walking {
    if !w.Going? then w else WalkAll(t.children, Scope(t, w.symbols, parent), Enter(t, parent, w))
  }

  function WalkAll(ts: seq<Tree>, parent: Option<nat>, w: Walking): Walking {
    if ts == [] then w else WalkAll(ts[1..], parent, Walk(ts[0], parent, w))
  }

  // ---- The explicit stack

  /** The outcome of the rest of the walk, from a stack of nodes with their scopes. */
  function Drain(stack: seq<(Tree, Option<nat>)>, w: Walking): Walking {
    if stack == [] then w
    else Drain(stack[..|stack| - 1], Walk(stack[|stack| - 1].0, stack[|stack| - 1].1, w))
  }

  /** The children in reverse, so that the first is popped first. */
  function Pushed(ts: seq<Tree>, scope: Option<nat>): seq<(Tree, Option<nat>)> {
    seq(|ts|, i requires 0 <= i < |ts| => (ts[|ts| - 1 - i], scope))
  }

  lemma {:induction false} DrainPushed(stack: seq<(Tree, Option<nat>)>, ts: seq<Tree>, scope: Option<nat>, w: Walking)
    ensures Drain(stack + Pushed(ts, scope), w) == Drain(stack, WalkAll(ts, scope, w))
    decreases |ts|
  {
    if ts == [] {
      assert stack + Pushed(ts, scope) == stack;
    } else {
      var all := stack + Pushed(ts, scope);
      assert all[|all| - 1] == (ts[0], scope);
      assert all[..|all| - 1] == stack + Pushed(ts[1..], scope);
      DrainPushed(stack, ts[1..], scope, Walk(ts[0], scope, w));
    }
  }

  lemma {:induction false} DrainStopped(stack: seq<(Tree, Option<nat>)>, w: Walking)
    requires !w.Going?
    ensures Drain(stack, w) == w
  {
    if stack != [] { DrainStopped(stack[..|stack| - 1], w); }
  }

  lemma {:induction false} WalkStopped(ts: seq<Tree>, scope: Option<nat>, w: Walking)
    requires !w.Going?
    ensures WalkAll(ts, scope, w) == w
  {
    if ts != [] { WalkStopped(ts[1..], scope, w); }
  }

  lemma StopsHere(stack: seq<(Tree, Option<nat>)>, t: Tree, parent: Option<nat>, w: Walking)
    requires !Enter(t, parent, w).Going?
    ensures Drain(stack, Walk(t, parent, w)) == Enter(t, parent, w)
  {
    if w.Going? { WalkStopped(t.children, Scope(t, w.symbols, parent), Enter(t, parent, w)); }
    DrainStopped(stack, Enter(t, parent, w));
  }

  function Size(t: Tree): nat {
    1 + SizeAll(t.children)
  }

  function SizeAll(ts: seq<Tree>): nat {
    if ts == [] then 0 else Size(ts[0]) + SizeAll(ts[1..])
  }

  ghost function StackSize(stack: seq<(Tree, Option<nat>)>): nat {
    if stack == [] then 0 else Size(stack[|stack| - 1].0) + StackSize(stack[..|stack| - 1])
  }

  lemma {:induction false} PushedSize(stack: seq<(Tree, Option<nat>)>, ts: seq<Tree>, scope: Option<nat>)
    ensures StackSize(stack + Pushed(ts, scope)) == StackSize(stack) + SizeAll(ts)
    decreases |ts|
  {
    if ts == [] {
      assert stack + Pushed(ts, scope) == stack;
    } else {
      var all := stack + Pushed(ts, scope);
      assert all[|all| - 1] == (ts[0], scope);
      assert all[..|all| - 1] == stack + Pushed(ts[1..], scope);
      PushedSize(stack, ts[1..], scope);
    }
  }

  /** Append a node's symbols one by one; `None` when a name is too long. */
  method AddNames(node: Tree, parent: Option<nat>, symbols: seq<Symbol>) returns (grown: Option<seq<Symbol>>, scope: Option<nat>)
    ensures grown == if AllFit(Added(node, symbols, parent)) then Some(symbols + Added(node, symbols, parent)) else None
    ensures grown.Some? ==> scope == Scope(node, symbols, parent)
  {
    var names := Names(node, symbols, parent);
    var prefix := Prefix(symbols, parent);
    ghost var added := Added(node, symbols, parent);
    var list := symbols;
    scope := parent;
    for i := 0 to |names|
      invariant list == symbols + added[..i] && AllFit(added[..i])
      invariant scope == if i > 0 then Scope(node, symbols, parent) else parent
    {
      var entry := Entry(node, prefix, parent, names[i]);
      assert entry == added[i];
      if TooLong(entry) {
        assert added[i] in added;
        return None, scope;
      }
      list := list + [entry];
      assert added[..i + 1] == added[..i] + [added[i]];
      if names[i].1.Definition() { scope := Some(|list| - 1); }
    }
    assert added[..|names|] == added;
    grown := Some(list);
  }

  /** The loop as written: an explicit stack instead of recursion. It lists the same symbols as
      the recursive walk, and falls back for the same reason. */
  method ParsePython(tree: Tree) returns (result: Walking)
    ensures result == Walk(tree, None, Going([], 0))
  {
    var symbols: seq<Symbol> := [];
    var stack: seq<(Tree, Option<nat>)> := [(tree, None)];
    var visited: nat := 0;
    assert stack[..0] == [];
    while stack != []
      invariant Drain(stack, Going(symbols, visited)) == Walk(tree, None, Going([], 0))
      decreases StackSize(stack)
    {
      var node, parent := stack[|stack| - 1].0, stack[|stack| - 1].1;
      stack := stack[..|stack| - 1];
      visited := visited + 1;
      if visited > MAX_NODES {
        StopsHere(stack, node, parent, Going(symbols, visited - 1));
        return NodeLimit;
      }
      var grown, scope := AddNames(node, parent, symbols);
      if grown.None? {
        StopsHere(stack, node, parent, Going(symbols, visited - 1));
        return SymbolLimit;
      }
      symbols := grown.value;
      DrainPushed(stack, node.children, scope, Going(symbols, visited));
      PushedSize(stack, node.children, scope);
      stack := stack + Pushed(node.children, scope);
    }
    result := Going(symbols, visited);
  }
}
