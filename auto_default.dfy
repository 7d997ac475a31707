/** The rewrite behind the `auto_default!` macro, as a function on syntax trees.

    A struct literal without a base gets `..Default::default()`, a struct
    literal whose base is the placeholder `..__` loses its base, and any other
    base is kept as written. The rewrite descends into the field values of
    struct literals and into the arguments of calls, and nowhere else.
 */
module AutoDefault {
  import opened Wrappers
  import opened Syntax

  /** The base a struct literal ends up with, given the base it was written with. */
  function NewRest(rest: Option<Expr>): (r: Option<Expr>)
    ensures r.None? <==> rest.Some? && IsPlaceholder(rest.value)
    ensures rest.None? ==> r == Some(DefaultCall())
    ensures rest.Some? && r.Some? ==> r == rest
  {
    match rest
    case None => Some(DefaultCall())
    case Some(base) => if IsPlaceholder(base) then None else Some(base)
  }

  /** The rewrite: the specification of the in-place method `ExprTree.Node.AddDefaultBases`. */
  function AddDefaultBases(e: Expr): (r: Expr)
    ensures r.Struct? <==> e.Struct?
    ensures r.Call? <==> e.Call?
    ensures !e.Struct? && !e.Call? ==> r == e
    decreases e
  {
    match e
    case Struct(path, fields, rest) =>
      Struct(path,
             seq(|fields|, i requires 0 <= i < |fields| =>
               FieldValue(fields[i].member, AddDefaultBases(fields[i].expr))),
             NewRest(rest))
    case Call(func, args) =>
      Call(func, seq(|args|, i requires 0 <= i < |args| => AddDefaultBases(args[i])))
    case _ => e
  }

  // ---------------------------------------------------------------------------
  // One node at a time

  /** A struct literal keeps its path and its fields' names and order; each
      field value is rewritten; its base follows the three rules. */
  lemma StructLiteralRewrite(e: Expr)
    requires e.Struct?
    ensures AddDefaultBases(e).Struct?
    ensures AddDefaultBases(e).path == e.path
    ensures |AddDefaultBases(e).fields| == |e.fields|
    ensures forall i :: 0 <= i < |e.fields| ==>
              AddDefaultBases(e).fields[i].member == e.fields[i].member &&
              AddDefaultBases(e).fields[i].expr == AddDefaultBases(e.fields[i].expr)
    ensures e.rest.None? ==> AddDefaultBases(e).rest == Some(DefaultCall())
    ensures e.rest.Some? && IsPlaceholder(e.rest.value) ==> AddDefaultBases(e).rest.None?
    ensures e.rest.Some? && !IsPlaceholder(e.rest.value) ==> AddDefaultBases(e).rest == e.rest
  {
  }

  /** A call keeps its callee untouched and rewrites each argument in place. */
  lemma CallRewrite(e: Expr)
    requires e.Call?
    ensures AddDefaultBases(e).Call?
    ensures AddDefaultBases(e).func == e.func
    ensures |AddDefaultBases(e).args| == |e.args|
    ensures forall i :: 0 <= i < |e.args| ==> AddDefaultBases(e).args[i] == AddDefaultBases(e.args[i])
  {
  }

  /** Every other expression, and all it contains, is left as it is. */
  lemma OtherUntouched(e: Expr)
    requires !e.Struct? && !e.Call?
    ensures AddDefaultBases(e) == e
  {
  }

  /** A kept base is not itself rewritten: a struct literal used as a base keeps
      having no base of its own. */
  lemma BaseNotRewritten(p: Path, q: Path)
    ensures AddDefaultBases(Struct(p, [], Some(Struct(q, [], None))))
         == Struct(p, [], Some(Struct(q, [], None)))
    ensures AddDefaultBases(Struct(q, [], None)) != Struct(q, [], None)
  {
  }

  // ---------------------------------------------------------------------------
  // Positions reachable through struct fields and call arguments

  datatype Step = Field(index: nat) | Arg(index: nat)

  /** The sub-expression reached from `e` by following `pos`, if every step exists. */
  function At(e: Expr, pos: seq<Step>): Option<Expr>
    decreases |pos|
  {
    if pos == [] then Some(e)
    else match pos[0]
      case Field(i) =>
        if e.Struct? && i < |e.fields| then At(e.fields[i].expr, pos[1..]) else None
      case Arg(i) =>
        if e.Call? && i < |e.args| then At(e.args[i], pos[1..]) else None
  }

  /** The rewrite keeps every reachable position and rewrites what is found there. */
  lemma {:induction false} RewriteAt(e: Expr, pos: seq<Step>)
    ensures At(AddDefaultBases(e), pos).Some? <==> At(e, pos).Some?
    ensures At(e, pos).Some? ==> At(AddDefaultBases(e), pos) == Some(AddDefaultBases(At(e, pos).value))
    decreases |pos|
  {
    if pos != [] {
      match pos[0]
      case Field(i) =>
        if e.Struct? && i < |e.fields| {
          RewriteAt(e.fields[i].expr, pos[1..]);
        }
      case Arg(i) =>
        if e.Call? && i < |e.args| {
          RewriteAt(e.args[i], pos[1..]);
        }
    }
  }

  /** A reachable struct literal has a base after the rewrite if and only if it
      was not written with `..__`; a missing base becomes `Default::default()`
      and any other base is kept. */
  lemma ReachableStructBase(e: Expr, pos: seq<Step>)
    requires At(e, pos).Some? && At(e, pos).value.Struct?
    ensures At(AddDefaultBases(e), pos).Some?
    ensures At(AddDefaultBases(e), pos).value.Struct?
    ensures At(AddDefaultBases(e), pos).value.rest.Some? <==>
              !(At(e, pos).value.rest.Some? && IsPlaceholder(At(e, pos).value.rest.value))
    ensures At(e, pos).value.rest.None? ==> At(AddDefaultBases(e), pos).value.rest == Some(DefaultCall())
    ensures At(e, pos).value.rest.Some? && !IsPlaceholder(At(e, pos).value.rest.value) ==>
              At(AddDefaultBases(e), pos).value.rest == At(e, pos).value.rest
  {
    RewriteAt(e, pos);
  }

  // ---------------------------------------------------------------------------
  // Only bases change

  /** The tree with the base of every reachable struct literal erased. */
  function Skeleton(e: Expr): Expr
    decreases e
  {
    match e
    case Struct(path, fields, _) =>
      Struct(path,
             seq(|fields|, i requires 0 <= i < |fields| =>
               FieldValue(fields[i].member, Skeleton(fields[i].expr))),
             None)
    case Call(func, args) =>
      Call(func, seq(|args|, i requires 0 <= i < |args| => Skeleton(args[i])))
    case _ => e
  }

  /** The rewrite changes nothing but the bases of reachable struct literals:
      paths, field names, field order, callees, argument order and every
      other node are as they were. */
  lemma {:induction false} SkeletonPreserved(e: Expr)
    ensures Skeleton(AddDefaultBases(e)) == Skeleton(e)
    decreases e
  {
    match e
    case Struct(path, fields, rest) =>
      forall i | 0 <= i < |fields| {
        SkeletonPreserved(fields[i].expr);
      }
    case Call(func, args) =>
      forall i | 0 <= i < |args| {
        SkeletonPreserved(args[i]);
      }
    case _ =>
  }

  /** `r` agrees with the rewrite of `e` on the base of the struct literal at `pos`, if there is one. */
  ghost predicate BaseRewrittenAt(e: Expr, r: Expr, pos: seq<Step>)
  {
    At(e, pos).Some? && At(e, pos).value.Struct? ==>
      At(r, pos).Some? && At(r, pos).value.Struct? &&
      At(r, pos).value.rest == NewRest(At(e, pos).value.rest)
  }

  lemma AtField(e: Expr, i: nat, pos: seq<Step>)
    requires e.Struct? && i < |e.fields|
    ensures At(e, [Field(i)] + pos) == At(e.fields[i].expr, pos)
  {
    assert ([Field(i)] + pos)[1..] == pos;
  }

  lemma AtArg(e: Expr, i: nat, pos: seq<Step>)
    requires e.Call? && i < |e.args|
    ensures At(e, [Arg(i)] + pos) == At(e.args[i], pos)
  {
    assert ([Arg(i)] + pos)[1..] == pos;
  }

  /** The skeleton of a tree has the same kind of root as the tree. */
  lemma SkeletonRoot(e: Expr)
    ensures Skeleton(e).Struct? <==> e.Struct?
    ensures Skeleton(e).Call? <==> e.Call?
    ensures !e.Struct? && !e.Call? ==> Skeleton(e) == e
  {
  }

  /** The two facts above determine the rewrite: any tree with the skeleton of
      `e` whose reachable struct literals carry the rewritten bases is the
      rewrite of `e`. */
  lemma {:induction false} RewriteCharacterised(e: Expr, r: Expr)
    requires Skeleton(r) == Skeleton(e)
    requires forall pos :: BaseRewrittenAt(e, r, pos)
    ensures r == AddDefaultBases(e)
    decreases e
  {
    SkeletonRoot(e);
    SkeletonRoot(r);
    match e
    case Struct(path, fields, rest) =>
      assert BaseRewrittenAt(e, r, []);
      assert |r.fields| == |fields|;
      forall i | 0 <= i < |fields|
        ensures r.fields[i] == AddDefaultBases(e).fields[i]
      {
        assert Skeleton(r).fields[i] == Skeleton(e).fields[i];
        forall pos
          ensures BaseRewrittenAt(fields[i].expr, r.fields[i].expr, pos)
        {
          AtField(e, i, pos);
          AtField(r, i, pos);
          assert BaseRewrittenAt(e, r, [Field(i)] + pos);
        }
        RewriteCharacterised(fields[i].expr, r.fields[i].expr);
      }
    case Call(func, args) =>
      assert |r.args| == |args|;
      forall i | 0 <= i < |args|
        ensures r.args[i] == AddDefaultBases(e).args[i]
      {
        assert Skeleton(r).args[i] == Skeleton(e).args[i];
        forall pos
          ensures BaseRewrittenAt(args[i], r.args[i], pos)
        {
          AtArg(e, i, pos);
          AtArg(r, i, pos);
          assert BaseRewrittenAt(e, r, [Arg(i)] + pos);
        }
        RewriteCharacterised(args[i], r.args[i]);
      }
    case _ =>
  }

  /** The rewrite itself meets both conditions of `RewriteCharacterised`. */
  lemma RewriteMeetsCharacterisation(e: Expr)
    ensures Skeleton(AddDefaultBases(e)) == Skeleton(e)
    ensures forall pos :: BaseRewrittenAt(e, AddDefaultBases(e), pos)
  {
    SkeletonPreserved(e);
    forall pos ensures BaseRewrittenAt(e, AddDefaultBases(e), pos) {
      RewriteAt(e, pos);
    }
  }

  // ---------------------------------------------------------------------------
  // Running the rewrite twice

  /** No struct literal reachable through fields and arguments has the base `..__`. */
  predicate PlaceholderFree(e: Expr)
    decreases e
  {
    match e
    case Struct(_, fields, rest) =>
      && !(rest.Some? && IsPlaceholder(rest.value))
      && forall i :: 0 <= i < |fields| ==> PlaceholderFree(fields[i].expr)
    case Call(_, args) =>
      forall i :: 0 <= i < |args| ==> PlaceholderFree(args[i])
    case _ => true
  }

  /** After the rewrite no `..__` base is left. */
  lemma {:induction false} RewriteRemovesPlaceholders(e: Expr)
    ensures PlaceholderFree(AddDefaultBases(e))
    decreases e
  {
    match e
    case Struct(path, fields, rest) =>
      forall i | 0 <= i < |fields| {
        RewriteRemovesPlaceholders(fields[i].expr);
      }
    case Call(func, args) =>
      forall i | 0 <= i < |args| {
        RewriteRemovesPlaceholders(args[i]);
      }
    case _ =>
  }

  /** On a tree with no `..__` base the rewrite is idempotent. */
  lemma {:induction false} IdempotentWithoutPlaceholders(e: Expr)
    requires PlaceholderFree(e)
    ensures AddDefaultBases(AddDefaultBases(e)) == AddDefaultBases(e)
    decreases e
  {
    match e
    case Struct(path, fields, rest) =>
      forall i | 0 <= i < |fields| {
        IdempotentWithoutPlaceholders(fields[i].expr);
      }
    case Call(func, args) =>
      forall i | 0 <= i < |args| {
        IdempotentWithoutPlaceholders(args[i]);
      }
    case _ =>
  }

  /** A second pass is a fixpoint: a third changes nothing more. */
  lemma SecondPassIsFixpoint(e: Expr)
    ensures AddDefaultBases(AddDefaultBases(AddDefaultBases(e))) == AddDefaultBases(AddDefaultBases(e))
  {
    RewriteRemovesPlaceholders(e);
    IdempotentWithoutPlaceholders(AddDefaultBases(e));
  }

  /** The rewrite is not idempotent: `S { ..__ }` loses its base on the first
      pass and gets `..Default::default()` on the second. */
  lemma NotIdempotent(p: Path)
    ensures AddDefaultBases(Struct(p, [], Some(PathExpr(false, Path(false, [PathSegment("__", false)])))))
         == Struct(p, [], None)
    ensures AddDefaultBases(Struct(p, [], None)) == Struct(p, [], Some(DefaultCall()))
  {
  }
}
