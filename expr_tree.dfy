/** The macro's syntax tree as a mutable, uniquely owned structure, and the
    in-place rewrite over it.

    A `Node` is one struct literal, call or other expression whose parts the
    rewrite may change. Its `kids` are the field values of a struct literal or
    the arguments of a call, each a `Node` of its own with a footprint `Repr`
    disjoint from its siblings' (each is owned by exactly one parent, as a `Box`
    is). The parts the rewrite never descends into (the path, field names, the
    base, the callee, and any other kind of expression) are immutable values.
 */
module ExprTree {
  import opened Wrappers
  import opened Syntax
  import opened AutoDefault

  /** What a node holds besides its children. */
  datatype Shape =
    | StructShape(path: Path, members: seq<Member>, rest: Option<Expr>)
    | CallShape(func: Expr)
    | LeafShape(expr: Expr)

  class Node {
    var shape: Shape
    var kids: seq<Node>
    /** The expression this node stands for. */
    ghost var Model: Expr
    ghost var Repr: set<object>

    /** The children are valid trees with pairwise disjoint footprints inside this node's. */
    ghost predicate KidsValid()
      reads this, Repr
      ensures KidsValid() ==> this in Repr
      decreases Repr, 0
    {
      && this in Repr
      && (forall i :: 0 <= i < |kids| ==>
            kids[i] in Repr && kids[i].Repr <= Repr && this !in kids[i].Repr && kids[i].Valid())
      && (forall i, j :: 0 <= i < j < |kids| ==> kids[i].Repr !! kids[j].Repr)
    }

    /** `Model` is what the shape and the children's models spell out. */
    ghost predicate ModelMatches()
      reads this, kids
    {
      match shape
      case StructShape(path, members, rest) =>
        && Model.Struct? && Model.path == path && Model.rest == rest
        && |members| == |kids| == |Model.fields|
        && forall i :: 0 <= i < |kids| ==> Model.fields[i] == FieldValue(members[i], kids[i].Model)
      case CallShape(func) =>
        && Model.Call? && Model.func == func && |Model.args| == |kids|
        && forall i :: 0 <= i < |kids| ==> Model.args[i] == kids[i].Model
      case LeafShape(expr) =>
        !expr.Struct? && !expr.Call? && kids == [] && Model == expr
    }

    ghost predicate Valid()
      reads this, Repr
      ensures Valid() ==> this in Repr
      decreases Repr, 1
    {
      KidsValid() && ModelMatches()
    }

    constructor (shape: Shape, kids: seq<Node>, ghost model: Expr, ghost repr: set<object>)
      requires forall i :: 0 <= i < |kids| ==> kids[i].Valid() && kids[i].Repr <= repr
      requires forall i, j :: 0 <= i < j < |kids| ==> kids[i].Repr !! kids[j].Repr
      requires match shape
         case StructShape(path, members, rest) =>
           && model.Struct? && model.path == path && model.rest == rest
           && |members| == |kids| == |model.fields|
           && forall i :: 0 <= i < |kids| ==> model.fields[i] == FieldValue(members[i], kids[i].Model)
         case CallShape(func) =>
           && model.Call? && model.func == func && |model.args| == |kids|
           && forall i :: 0 <= i < |kids| ==> model.args[i] == kids[i].Model
         case LeafShape(expr) =>
           !expr.Struct? && !expr.Call? && kids == [] && model == expr
      ensures Valid() && Model == model && Repr == repr + {this}
    {
      this.shape := shape;
      this.kids := kids;
      this.Model := model;
      this.Repr := repr + {this};
    }

    /** Builds the tree for `e`, as parsing the macro input does. */
    static method Build(e: Expr) returns (n: Node)
      ensures n.Valid() && n.Model == e && fresh(n.Repr)
      decreases e
    {
      var kids: seq<Node> := [];
      ghost var repr: set<object> := {};
      var count := match e
        case Struct(_, fields, _) => |fields|
        case Call(_, args) => |args|
        case _ => 0;
      var i := 0;
      while i < count
        invariant 0 <= i <= count && |kids| == i
        invariant fresh(repr)
        invariant forall j :: 0 <= j < i ==> kids[j].Valid() && kids[j].Repr <= repr
        invariant forall j :: 0 <= j < i ==>
                    kids[j].Model == if e.Struct? then e.fields[j].expr else e.args[j]
        invariant forall j, k :: 0 <= j < k < i ==> kids[j].Repr !! kids[k].Repr
      {
        var kid := Build(if e.Struct? then e.fields[i].expr else e.args[i]);
        kids := kids + [kid];
        repr := repr + kid.Repr;
        i := i + 1;
      }
      match e
      case Struct(path, fields, rest) =>
        n := new Node(StructShape(path, seq(|fields|, j requires 0 <= j < |fields| => fields[j].member), rest),
                      kids, e, repr);
      case Call(func, args) =>
        n := new Node(CallShape(func), kids, e, repr);
      case _ =>
        n := new Node(LeafShape(e), kids, e, repr);
    }

    /** The expression the tree now holds, as re-emitting the macro output reads it. */
    method ToExpr() returns (e: Expr)
      requires Valid()
      ensures e == Model
      decreases Repr
    {
      var parts: seq<Expr> := [];
      var i := 0;
      while i < |kids|
        invariant 0 <= i <= |kids| && |parts| == i
        invariant forall j :: 0 <= j < i ==> parts[j] == kids[j].Model
      {
        var part := kids[i].ToExpr();
        parts := parts + [part];
        i := i + 1;
      }
      match shape
      case StructShape(path, members, rest) =>
        e := Struct(path, seq(|parts|, j requires 0 <= j < |parts| => FieldValue(members[j], parts[j])), rest);
      case CallShape(func) =>
        e := Call(func, parts);
      case LeafShape(expr) =>
        e := expr;
    }

    /** The in-place rewrite: sets this node's base if it is a struct literal,
        then rewrites every field value or argument in place, left to right. */
    method AddDefaultBases()
      requires Valid()
      modifies Repr
      ensures Valid() && Repr == old(Repr)
      ensures Model == AutoDefault.AddDefaultBases(old(Model))
      decreases Repr, 1
    {
      if shape.StructShape? {
        shape := shape.(rest := NewRest(shape.rest));
      }
      RewriteKids();
      Model := AutoDefault.AddDefaultBases(Model);
      match shape
      case StructShape(path, members, rest) =>
        assert forall j :: 0 <= j < |kids| ==> Model.fields[j] == FieldValue(members[j], kids[j].Model);
      case CallShape(func) =>
        assert forall j :: 0 <= j < |kids| ==> Model.args[j] == kids[j].Model;
      case LeafShape(expr) =>
    }

    /** Rewrites every child in place, left to right; nothing else changes. */
    method RewriteKids()
      requires KidsValid()
      modifies Repr - {this}
      ensures KidsValid() && Repr == old(Repr)
      ensures forall j :: 0 <= j < |kids| ==> kids[j].Repr == old(kids[j].Repr)
      ensures forall j :: 0 <= j < |kids| ==> kids[j].Model == AutoDefault.AddDefaultBases(old(kids[j].Model))
      decreases Repr, 0
    {
      var i := 0;
      while i < |kids|
        invariant 0 <= i <= |kids|
        invariant forall j :: 0 <= j < |kids| ==>
                    && kids[j].Repr == old(kids[j].Repr)
                    && kids[j] in kids[j].Repr && kids[j].Valid()
        invariant forall j :: 0 <= j < i ==> kids[j].Model == AutoDefault.AddDefaultBases(old(kids[j].Model))
        invariant forall j :: i <= j < |kids| ==> kids[j].Model == old(kids[j].Model)
      {
        kids[i].AddDefaultBases();
        i := i + 1;
      }
    }
  }

  /** What `parse_macro_input!` produced: the parsed expression or the parser's message. */
  datatype Parsed = Parsed(expr: Expr) | ParseError(message: string)

  /** The macro's expansion: the rewritten expression, or a compile error. */
  datatype Expansion = Expanded(expr: Expr) | CompileError(message: string)

  /** The `auto_default!` macro: a parse failure becomes a compile error;
      otherwise the output is exactly the rewrite of the parsed expression. */
  method AutoDefaultMacro(input: Parsed) returns (output: Expansion)
    ensures input.ParseError? ==> output == CompileError(input.message)
    ensures input.Parsed? ==> output == Expanded(AutoDefault.AddDefaultBases(input.expr))
  {
    match input
    case ParseError(message) =>
      output := CompileError(message);
    case Parsed(e) =>
      var tree := Node.Build(e);
      tree.AddDefaultBases();
      var rewritten := tree.ToExpr();
      output := Expanded(rewritten);
  }
}
