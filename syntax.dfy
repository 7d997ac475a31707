/** The part of Rust's expression syntax tree that the `auto_default!` macro looks at.

    Only struct literals and calls are distinguished; a path expression is kept
    because a base of the form `..__` is one; every other expression kind is
    `Other`, with the sub-expressions it contains kept as opaque children.
 */
module Syntax {
  import opened Wrappers

  /** One segment of a path; `hasArguments` is true for `Vec::<u8>`-style generic arguments. */
  datatype PathSegment = PathSegment(ident: string, hasArguments: bool)

  /** A path such as `Default::default` or `::std::default::Default`. */
  datatype Path = Path(leadingColon: bool, segments: seq<PathSegment>)

  /** The name of a struct literal's field: `x: e` or `0: e`. */
  datatype Member = Named(name: string) | Unnamed(index: nat)

  datatype Expr =
    /** `path { fields.. , ..rest }`; `rest` is the base expression after `..`, if any */
    | Struct(path: Path, fields: seq<FieldValue>, rest: Option<Expr>)
    /** `func(args..)` */
    | Call(func: Expr, args: seq<Expr>)
    /** A path expression, with or without a `<T as Trait>::` qualifier. */
    | PathExpr(qualified: bool, path: Path)
    /** Any other expression (a block, a method call, a literal, ...) with its sub-expressions. */
    | Other(kind: string, children: seq<Expr>)

  datatype FieldValue = FieldValue(member: Member, expr: Expr)

  /** True when `p` is exactly the single identifier `id`: no leading `::`,
      one segment, no generic arguments (syn's `Path::is_ident`). */
  predicate IsIdent(p: Path, id: string)
  {
    && !p.leadingColon
    && |p.segments| == 1
    && !p.segments[0].hasArguments
    && p.segments[0].ident == id
  }

  /** The placeholder base `__`, which asks for the base to be removed; a
      `<T as Trait>::` qualifier does not matter. */
  predicate IsPlaceholder(e: Expr)
    ensures IsPlaceholder(e) <==> e.PathExpr? && e.path == Path(false, [PathSegment("__", false)])
  {
    e.PathExpr? && IsIdent(e.path, "__")
  }

  /** The expression `Default::default()`. */
  function DefaultCall(): (d: Expr)
    ensures d.Call? && d.args == [] && !IsPlaceholder(d)
  {
    Call(PathExpr(false, Path(false, [PathSegment("Default", false), PathSegment("default", false)])), [])
  }
}
