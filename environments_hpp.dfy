/**
 * The syntax tree and the chained `Environment` of
 * ExpressionsStatementsEnvironments.hpp, the second C++ draft.
 *
 * An `Environment` is one frame: its own map and a fixed pointer to the
 * frame that encloses it. Its contents, read from the innermost frame
 * outwards, are `Frames()`, and every operation is specified on that
 * sequence of maps.
 */
module EnvironmentsHpp {
  import opened Wrappers
  import opened Values
  import opened Lexical
  import opened LexerHpp

  type Tok = Token<Kind>

  // ---------------------------------------------------------------------
  // Syntax tree
  // ---------------------------------------------------------------------

  /**
   * The seven `Expr` structs, and `Call` for the `CallExpr` that parser.cpp
   * builds; `CallExpr` is declared in none of the draft's files and has no
   * `visit` method.
   */
  datatype Expr =
    | Binary(token: Tok, operand1: Expr, operand2: Expr)
    | Unary(token: Tok, operand: Expr)
    | Grouping(groupingExpr: Expr)
    | Literal(value: Value)
    | Logical(operand1: Expr, operand2: Expr, token: Tok)
    | Assign(variableName: Tok, assignmentValue: Expr)
    | Variable(name: Tok)
    | Call(callee: Expr, paren: Tok, arguments: seq<Expr>)

  /**
   * The six `Stmt` structs, and `Function` for parser.cpp's `FunctionStmt`,
   * which is declared nowhere either. A null `shared_ptr` is `None`: an
   * absent initializer or `else` branch, and the statement `declaration`
   * returns after a parse error, which can stand in a block.
   */
  datatype Stmt =
    | VariableStmt(token: Tok, initializer: Option<Expr>)
    | If(condition: Expr, thenBranch: Stmt, elseBranch: Option<Stmt>)
    | Block(statements: seq<Option<Stmt>>)
    | Print(printval: Expr)
    | While(condition: Expr, body: Stmt)
    | ExpressionStmt(expression: Expr)
    | Function(name: Tok, params: seq<Tok>, functionBody: seq<Option<Stmt>>)

  // ---------------------------------------------------------------------
  // The chain of frames
  // ---------------------------------------------------------------------

  datatype RuntimeError = RuntimeError(token: Tok, message: string)

  const UndefinedAssign := "RUNTIME ERROR : Trying to assign to undefined variable."
  const UndefinedGet := "RUNTIME ERROR : Trying to access an undefined variable."

  /** Some frame of the chain binds the name. */
  predicate Declared(frames: seq<map<string, Value>>, name: string)
  {
    exists i :: 0 <= i < |frames| && name in frames[i]
  }

  /** The innermost frame that binds the name; `|frames|` when none does. */
  function Nearest(frames: seq<map<string, Value>>, name: string): (i: nat)
    ensures i <= |frames|
    ensures forall j :: 0 <= j < i ==> name !in frames[j]
    ensures i < |frames| <==> Declared(frames, name)
    ensures i < |frames| ==> name in frames[i]
  {
    if frames == [] then 0
    else if name in frames[0] then 0
    else
      var i := Nearest(frames[1..], name);
      assert forall j :: 1 <= j < |frames| ==> frames[j] == frames[1..][j - 1];
      i + 1
  }

  /** `get`: the binding of the innermost frame that has the name, or the error. */
  function Resolve(frames: seq<map<string, Value>>, name: Tok): (r: Result<Value, RuntimeError>)
    ensures r.Success? <==> Declared(frames, name.lexeme)
    ensures r.Failure? ==> r.error == RuntimeError(name, UndefinedGet)
  {
    var i := Nearest(frames, name.lexeme);
    if i < |frames| then Success(frames[i][name.lexeme]) else Failure(RuntimeError(name, UndefinedGet))
  }

  /** A frame with the name rebound, if it binds it. */
  function Rebound(frame: map<string, Value>, name: string, value: Value): (r: map<string, Value>)
    ensures r.Keys == frame.Keys
  {
    if name in frame then frame[name := value] else frame
  }

  /**
   * What `assign` as written leaves: every frame that binds the name
   * rebinds it, shadowed outer bindings included.
   */
  function ReboundEverywhere(frames: seq<map<string, Value>>, name: string, value: Value): (r: seq<map<string, Value>>)
    ensures |r| == |frames|
  {
    seq(|frames|, i requires 0 <= i < |frames| => Rebound(frames[i], name, value))
  }

  /** What a closest-wins `assign` leaves: only the innermost frame that binds the name changes. */
  function ReboundNearest(frames: seq<map<string, Value>>, name: string, value: Value): (r: seq<map<string, Value>>)
    ensures |r| == |frames|
  {
    var i := Nearest(frames, name);
    if i < |frames| then frames[i := frames[i][name := value]] else frames
  }

  /** Defining in a frame is seen first by `get`, and hides nothing else. */
  lemma {:induction false} ResolveAfterDefine(frames: seq<map<string, Value>>, name: string, value: Value, token: Tok)
    requires |frames| > 0
    ensures var after := [frames[0][name := value]] + frames[1..];
      Resolve(after, token) == if token.lexeme == name then Success(value) else Resolve(frames, token)
  {
    var after := [frames[0][name := value]] + frames[1..];
    if token.lexeme != name {
      var i := Nearest(frames, token.lexeme);
      var k := Nearest(after, token.lexeme);
      forall j | 0 <= j < |frames|
        ensures token.lexeme in after[j] <==> token.lexeme in frames[j]
      {
      }
      NearestAgrees(after, frames, token.lexeme);
    }
  }

  /** Chains whose frames bind the name in the same places have the same innermost binder. */
  lemma {:induction false} NearestAgrees(a: seq<map<string, Value>>, b: seq<map<string, Value>>, name: string)
    requires |a| == |b|
    requires forall j :: 0 <= j < |a| ==> (name in a[j] <==> name in b[j])
    ensures Nearest(a, name) == Nearest(b, name)
  {
    if a != [] && name !in a[0] {
      assert forall j :: 0 <= j < |a| - 1 ==> a[1..][j] == a[j + 1] && b[1..][j] == b[j + 1];
      NearestAgrees(a[1..], b[1..], name);
    }
  }

  /** After the closest-wins assignment `get` sees the new value, and every other name keeps its binding. */
  lemma {:induction false} ResolveAfterNearest(frames: seq<map<string, Value>>, name: string, value: Value, token: Tok)
    requires Declared(frames, name)
    ensures Resolve(ReboundNearest(frames, name, value), token) ==
      if token.lexeme == name then Success(value) else Resolve(frames, token)
  {
    var after := ReboundNearest(frames, name, value);
    var n := Nearest(frames, name);
    forall j | 0 <= j < |frames|
      ensures after[j].Keys == frames[j].Keys
      ensures j != n ==> after[j] == frames[j]
    {
    }
    var i := Nearest(frames, token.lexeme);
    var k := Nearest(after, token.lexeme);
    NearestAgrees(after, frames, token.lexeme);
  }

  /**
   * The writes of `assign` as written are seen by `get`, which stops at the
   * innermost of them; every other name keeps its binding.
   */
  lemma {:induction false} ResolveAfterEverywhere(frames: seq<map<string, Value>>, name: string, value: Value, token: Tok)
    requires Declared(frames, name)
    ensures Resolve(ReboundEverywhere(frames, name, value), token) ==
      if token.lexeme == name then Success(value) else Resolve(frames, token)
  {
    var after := ReboundEverywhere(frames, name, value);
    forall j | 0 <= j < |frames|
      ensures after[j].Keys == frames[j].Keys
    {
    }
    NearestAgrees(after, frames, token.lexeme);
  }

  /** The closest-wins assignment leaves every frame but one as it was, outer shadowed bindings included. */
  lemma ReboundNearestOnlyOne(frames: seq<map<string, Value>>, name: string, value: Value)
    ensures var after := ReboundNearest(frames, name, value);
      forall j :: 0 <= j < |frames| && j != Nearest(frames, name) ==> after[j] == frames[j]
  {
  }

  /**
   * `assign` as written rewrites a shadowed binding too: with `a` bound in
   * an inner and an outer frame, both frames change.
   */
  lemma ShadowedBindingOverwritten(a: string, inner: Value, outer: Value, value: Value)
    requires outer != value
    ensures var frames := [map[a := inner], map[a := outer]];
      ReboundEverywhere(frames, a, value)[1][a] == value &&
      ReboundNearest(frames, a, value)[1][a] == outer
  {
  }

  // ---------------------------------------------------------------------
  // The environment object
  // ---------------------------------------------------------------------

  /**
   * One frame. `enclosing` is set by the constructor and never changed, so
   * the chain it starts is fixed and acyclic; `Repr` is the frames on it.
   */
  class Environment {
    const enclosing: Environment?
    var values: map<string, Value>
    ghost const Repr: set<Environment>

    ghost predicate Valid()
      decreases Repr
    {
      this in Repr &&
      (enclosing == null ==> Repr == {this}) &&
      (enclosing != null ==>
        enclosing in Repr && this !in enclosing.Repr && Repr == {this} + enclosing.Repr && enclosing.Valid())
    }

    /** The maps of the chain, from this frame outwards. */
    ghost function Frames(): (r: seq<map<string, Value>>)
      reads Repr
      requires Valid()
      ensures |r| > 0 && r[0] == values
      decreases Repr
    {
      [values] + if enclosing == null then [] else enclosing.Frames()
    }

    /** The default constructor: a global frame with nothing enclosing it. */
    constructor ()
      ensures Valid() && enclosing == null && Frames() == [map[]]
    {
      enclosing := null;
      values := map[];
      Repr := {this};
    }

    /** A frame inside `enclosing`, which it keeps. */
    constructor Enclosed(enclosing: Environment)
      requires enclosing.Valid()
      ensures Valid() && this.enclosing == enclosing && Frames() == [map[]] + enclosing.Frames()
    {
      this.enclosing := enclosing;
      values := map[];
      Repr := {this} + enclosing.Repr;
    }

    /** `define`: bind in this frame only, overwriting a binding it has. */
    method Define(name: string, value: Value)
      requires Valid()
      modifies this
      ensures Valid() && Frames() == [old(values)[name := value]] + old(Frames())[1..]
    {
      values := values[name := value];
    }

    /** `get`: this frame's binding, else the enclosing frame's answer, else the error. */
    method Get(name: Tok) returns (r: Result<Value, RuntimeError>)
      requires Valid()
      ensures r == Resolve(Frames(), name)
      decreases Repr
    {
      if name.lexeme in values {
        return Success(values[name.lexeme]);
      }
      if enclosing != null {
        r := enclosing.Get(name);
        assert Frames()[1..] == enclosing.Frames();
        ResolveSkips(Frames(), name);
        return;
      }
      return Failure(RuntimeError(name, UndefinedGet));
    }

    /**
     * `assign` as written: rebind the name in this frame if it is here,
     * then pass the assignment on to the enclosing frame; only the global
     * frame has no enclosing frame, and it throws. So every frame on the
     * chain that binds the name is rewritten, and the call always ends in
     * a `RuntimeError`.
     */
    method Assign(name: Tok, value: Value) returns (r: Result<(), RuntimeError>)
      requires Valid()
      modifies Repr
      ensures Valid() && Frames() == ReboundEverywhere(old(Frames()), name.lexeme, value)
      ensures r == Failure(RuntimeError(name, UndefinedAssign))
      decreases Repr
    {
      ghost var before := Frames();
      ghost var outer := if enclosing == null then [] else enclosing.Frames();
      EverywhereSplits(before, name.lexeme, value);
      if name.lexeme in values {
        values := values[name.lexeme := value];
      }
      if enclosing != null {
        assert enclosing.Frames() == outer == before[1..];
        r := enclosing.Assign(name, value);
        return;
      }
      return Failure(RuntimeError(name, UndefinedAssign));
    }

    /**
     * The evidently intended `assign`: rebind the name in the innermost
     * frame that has it and stop there; throw only when no frame has it.
     */
    method AssignNearest(name: Tok, value: Value) returns (r: Result<(), RuntimeError>)
      requires Valid()
      modifies Repr
      ensures Valid() && Frames() == ReboundNearest(old(Frames()), name.lexeme, value)
      ensures r.Success? <==> Declared(old(Frames()), name.lexeme)
      ensures r.Failure? ==> r.error == RuntimeError(name, UndefinedAssign)
      decreases Repr
    {
      ghost var before := Frames();
      ghost var outer := if enclosing == null then [] else enclosing.Frames();
      assert outer == before[1..];
      if name.lexeme in values {
        values := values[name.lexeme := value];
        assert Frames() == [values] + outer;
        return Success(());
      }
      if enclosing != null {
        NearestSkips(before, name.lexeme, value);
        r := enclosing.AssignNearest(name, value);
        return;
      }
      return Failure(RuntimeError(name, UndefinedAssign));
    }
  }

  /** `assign` as written, on the first frame and then on the rest of the chain. */
  lemma EverywhereSplits(frames: seq<map<string, Value>>, name: string, value: Value)
    requires |frames| > 0
    ensures ReboundEverywhere(frames, name, value) == [Rebound(frames[0], name, value)] + ReboundEverywhere(frames[1..], name, value)
  {
  }

  /** When the first frame lacks the name, `get` answers as the rest of the chain does. */
  lemma ResolveSkips(frames: seq<map<string, Value>>, name: Tok)
    requires |frames| > 0 && name.lexeme !in frames[0]
    ensures Resolve(frames, name) == Resolve(frames[1..], name)
  {
    assert Nearest(frames, name.lexeme) == Nearest(frames[1..], name.lexeme) + 1;
  }

  /** When the first frame lacks the name, the closest-wins assignment happens in the rest of the chain. */
  lemma NearestSkips(frames: seq<map<string, Value>>, name: string, value: Value)
    requires |frames| > 0 && name !in frames[0]
    ensures ReboundNearest(frames, name, value) == [frames[0]] + ReboundNearest(frames[1..], name, value)
    ensures Declared(frames, name) <==> Declared(frames[1..], name)
  {
    var i := Nearest(frames[1..], name);
    assert Nearest(frames, name) == i + 1;
    if i < |frames| - 1 {
      assert frames[i + 1] == frames[1..][i];
    }
  }
}
