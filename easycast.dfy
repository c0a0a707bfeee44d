/** The `easycast` type-expression builder of drgn.

    A chain of nodes records C type tokens, each node pointing back to its
    predecessor. Attribute access adds an identifier (a name made only of
    underscores becomes a run of `*`), indexing adds an array node `[]`,
    calling adds a function node `()` or, with one plain value, renders the
    chain and hands the string to the host program's type lookup and cast. */
module EasyCast {
  import opened Wrappers
  import opened Text

  /** One builder node. `Root` is the empty instance `_` (token None); every
      other node owns the node it was derived from. A `Tok` holds its token
      after the underscore rewrite. */
  datatype Chain =
    | Root
    | Tok(token: string, pred: Chain)
    | Arr(sz: Option<int>, pred: Chain)
    | Fn(params: Params, pred: Chain)

  /** The `params` of a function node: `None` (no parameter list given) or
      the parameter chains in order. */
  datatype Params = Unspecified | Listed(chains: seq<Chain>)

  /** The node's private `__token`: "" stands for Python's None. */
  function TokenText(c: Chain): string
  {
    match c
    case Root => ""
    case Tok(token, _) => token
    case Arr(_, _) => "[]"
    case Fn(_, _) => "()"
  }

  /** `not ec.__token`: the walk of stringify stops at such a node, and a
      call with such a chain as its only argument wraps it as a pointer. */
  predicate IsEmpty(c: Chain)
  {
    TokenText(c) == ""
  }

  /** A non-empty name made only of underscores. */
  predicate IsPointerRun(name: string)
  {
    |name| > 0 && forall i :: 0 <= i < |name| ==> name[i] == '_'
  }

  /** The rewrite `__init__` applies to a new token: a run of underscores
      becomes as many `*`, any other token is kept as it is. */
  function Rewrite(name: string): (r: string)
    ensures |r| == |name|
    ensures IsPointerRun(name) ==> forall i :: 0 <= i < |r| ==> r[i] == '*'
    ensures !IsPointerRun(name) ==> r == name
  {
    if |name| > 0 && name == Repeat('_', |name|) then Repeat('*', |name|) else name
  }

  /** `__getattr__`: a new node whose token is the rewritten name and whose
      predecessor is the receiver, which is left as it was. */
  function Attr(c: Chain, name: string): (r: Chain)
    ensures r.Tok? && r.pred == c && r != c
    ensures TokenText(r) == Rewrite(name)
  {
    Tok(Rewrite(name), c)
  }

  /** `__getitem__`: a new `[]` node whose size is the index. */
  function Index(c: Chain, sz: Option<int>): (r: Chain)
    ensures r.Arr? && r.pred == c && r != c
    ensures TokenText(r) == "[]" && r.sz == sz
  {
    // Needed for `r != c`: the solver does not see unaided that a node
    // differs from its own predecessor.
    assert Size(Arr(sz, c)) > Size(c);
    Arr(sz, c)
  }

  /** What an array node contributes: `[` size `]`, or `[]` without a size. */
  function ArrayFragment(sz: Option<int>): string
  {
    match sz
    case None => "[]"
    case Some(n) => "[" + IntToString(n) + "]"
  }

  /** Reads the size back out of an array fragment. */
  function ArraySize(f: string): Option<int>
  {
    if |f| >= 2 && f[0] == '[' && f[|f| - 1] == ']' then
      if |f| == 2 then None else Some(ParseInt(f[1..|f| - 1]))
    else None
  }

  /** An array fragment is bracketed and determines the size it was made from. */
  lemma ArrayFragmentRoundTrip(sz: Option<int>)
    ensures var f := ArrayFragment(sz); |f| >= 2 && f[0] == '[' && f[|f| - 1] == ']'
    ensures ArraySize(ArrayFragment(sz)) == sz
  {
    if sz.Some? {
      var f := ArrayFragment(sz);
      assert f[1..|f| - 1] == IntToString(sz.value);
      IntToStringRoundTrip(sz.value);
    }
  }

  /** The text one non-empty node contributes to the rendering. */
  function Fragment(c: Chain): (r: string)
    requires !IsEmpty(c)
    ensures r != ""
    decreases c, 0
  {
    match c
    case Tok(token, _) => token
    case Arr(sz, _) => ArrayFragment(sz)
    case Fn(Unspecified, _) => "()"
    case Fn(Listed(ps), _) => "(" + Join(RenderAll(ps), ", ") + ")"
  }

  /** `[param.__stringify() for param in params]`: each parameter chain's
      rendering, in order. */
  function RenderAll(ps: seq<Chain>): (r: seq<string>)
    ensures |r| == |ps|
    ensures forall i :: 0 <= i < |ps| ==> r[i] == Render(ps[i])
    decreases ps, 3
  {
    if ps == [] then [] else RenderAll(ps[..|ps| - 1]) + [Render(ps[|ps| - 1])]
  }

  /** The fragments of the nodes from the root's successor to the tail: the
      walk from the tail stops at the first node whose token is unset. */
  function Fragments(c: Chain): (r: seq<string>)
    ensures r == [] <==> IsEmpty(c)
    ensures forall i :: 0 <= i < |r| ==> r[i] != ""
    decreases c, 1
  {
    if IsEmpty(c) then [] else Fragments(c.pred) + [Fragment(c)]
  }

  /** The C type string of a chain: its fragments joined by single spaces. */
  function Render(c: Chain): (r: string)
    ensures r == "" <==> IsEmpty(c)
    decreases c, 2
  {
    JoinEmptyIff(Fragments(c), " ");
    Join(Fragments(c), " ")
  }

  /** `a` and `b` as one space-separated string; `a` alone is "" at the root. */
  function Then(a: string, b: string): string
  {
    if a == "" then b else a + " " + b
  }

  /** Extending a chain by one node appends that node's fragment to the
      rendering of the chain, after a single space. */
  lemma RenderNode(c: Chain)
    requires !IsEmpty(c)
    ensures Render(c) == Then(Render(c.pred), Fragment(c))
  {
    JoinSnoc(Fragments(c.pred), Fragment(c), " ");
  }

  /** `_.x.name` renders as the rendering of `_.x` followed by the rewritten name. */
  lemma RenderAttr(c: Chain, name: string)
    requires name != ""
    ensures Render(Attr(c, name)) == Then(Render(c), Rewrite(name))
  {
    RenderNode(Attr(c, name));
  }

  /** `_.x[sz]` renders as the rendering of `_.x` followed by `[sz]` or `[]`. */
  lemma RenderIndex(c: Chain, sz: Option<int>)
    ensures Render(Index(c, sz)) == Then(Render(c), ArrayFragment(sz))
  {
    RenderNode(Index(c, sz));
  }

  /** A function node renders as `()` without a parameter list, and otherwise
      as each parameter chain's own rendering, in order, joined by ", "
      inside parentheses. */
  lemma RenderFunction(c: Chain, params: Params)
    ensures params.Unspecified? ==> Render(Fn(params, c)) == Then(Render(c), "()")
    ensures params.Listed? ==>
      Render(Fn(params, c)) ==
      Then(Render(c), "(" + Join(RenderAll(params.chains), ", ") + ")")
  {
    RenderNode(Fn(params, c));
  }

  /** A measure that shrinks from a node to its predecessor and to each of
      its parameter chains. */
  ghost function Size(c: Chain): nat
    decreases c
  {
    match c
    case Root => 1
    case Tok(_, p) => 1 + Size(p)
    case Arr(_, p) => 1 + Size(p)
    case Fn(Unspecified, p) => 1 + Size(p)
    case Fn(Listed(ps), p) => 1 + Size(p) + SizeAll(ps)
  }

  ghost function SizeAll(ps: seq<Chain>): nat
    decreases ps
  {
    if ps == [] then 0 else SizeAll(ps[..|ps| - 1]) + Size(ps[|ps| - 1])
  }

  lemma {:induction false} SizeAllBound(ps: seq<Chain>, i: nat)
    requires i < |ps|
    ensures Size(ps[i]) <= SizeAll(ps)
    decreases |ps|
  {
    if i < |ps| - 1 {
      SizeAllBound(ps[..|ps| - 1], i);
    }
  }

  lemma ParamSmaller(ps: seq<Chain>, p: Chain, i: nat)
    requires i < |ps|
    ensures Size(ps[i]) < Size(Fn(Listed(ps), p))
  {
    SizeAllBound(ps, i);
  }

  /** One round of the walk in Stringify: collecting a node's fragment and
      moving to its predecessor keeps the fragments still to be collected,
      followed by the collected ones in reverse, equal to the whole chain's. */
  lemma WalkStep(ec: Chain, tokens: seq<string>, piece: string)
    requires !IsEmpty(ec) && piece == Fragment(ec)
    ensures Fragments(ec) + Reversed(tokens) == Fragments(ec.pred) + Reversed(tokens + [piece])
  {
    assert Reversed(tokens + [piece]) == [piece] + Reversed(tokens);
  }

  /** The body of the walk in `__stringify` for one node whose token is set:
      `(...)` or `()` for a function node (rendering each parameter chain by
      Stringify), `[size]` or `[]` for an array node, the token itself
      otherwise. */
  method StringifyNode(ec: Chain) returns (piece: string)
    requires !IsEmpty(ec)
    ensures piece == Fragment(ec)
    decreases Size(ec), 0
  {
    match ec {
      case Fn(params, _) =>
        if params.Unspecified? {
          piece := "()";
        } else {
          var ps := params.chains;
          var parts: seq<string> := [];
          for i := 0 to |ps|
            invariant parts == RenderAll(ps[..i])
          {
            assert ps[..i + 1][..i] == ps[..i];
            ParamSmaller(ps, ec.pred, i);
            var part := Stringify(ps[i]);
            parts := parts + [part];
          }
          assert ps[..|ps|] == ps;
          piece := "(" + Join(parts, ", ") + ")";
        }
      case Arr(sz, _) =>
        if sz.Some? {
          piece := "[" + IntToString(sz.value) + "]";
        } else {
          piece := "[]";
        }
      case Tok(token, _) =>
        piece := token;
    }
  }

  /** `__stringify`: walks from the tail along predecessor links while the
      token is set, collecting each node's fragment, then reverses the
      collected pieces and joins them with single spaces. */
  method Stringify(c: Chain) returns (s: string)
    ensures s == Render(c)
    decreases Size(c), 1
  {
    var tokens: seq<string> := [];
    var ec := c;
    while TokenText(ec) != ""
      invariant Size(ec) <= Size(c)
      invariant Fragments(c) == Fragments(ec) + Reversed(tokens)
      decreases ec
    {
      var piece := StringifyNode(ec);
      WalkStep(ec, tokens, piece);
      tokens := tokens + [piece];
      ec := ec.pred;
    }
    assert Fragments(ec) == [];
    assert Fragments(c) == Reversed(tokens);
    tokens := Reversed(tokens);
    s := Join(tokens, " ");
  }

  /** One argument of `__call__`: a builder chain, Python's None, or any
      other value (the thing to cast). */
  datatype Arg<V> = ChainArg(chain: Chain) | NoneArg | ValueArg(value: V)

  /** The host program the chain was built for: `prog.type(name)` and
      `drgn.cast(type, value)`, either of which may raise. */
  datatype Provider<!T, !V, R, E> = Provider(lookupType: string -> Result<T, E>, cast: (T, V) -> Result<R, E>)

  /** What `__call__` does: raise "No value to cast", return a new function
      node, or return (or raise) what the terminal cast gives. */
  datatype CallResult<R, E> = NoValueToCast | Extended(chain: Chain) | Casted(outcome: Result<R, E>)

  /** `__cast`: looks up the type named by the chain's rendering and casts
      the value to it; a failure of either host call is passed on as it is. */
  function Cast<T, V, R, E>(c: Chain, value: V, prog: Provider<T, V, R, E>): (r: Result<R, E>)
    ensures prog.lookupType(Render(c)).Failure? ==> r == Failure(prog.lookupType(Render(c)).error)
    ensures prog.lookupType(Render(c)).Success? ==> r == prog.cast(prog.lookupType(Render(c)).value, value)
  {
    match prog.lookupType(Render(c))
    case Failure(e) => Failure(e)
    case Success(t) => prog.cast(t, value)
  }

  predicate AllChains<V>(args: seq<Arg<V>>)
  {
    forall i :: 0 <= i < |args| ==> args[i].ChainArg?
  }

  function ChainsOf<V>(args: seq<Arg<V>>): (r: seq<Chain>)
    requires AllChains(args)
    ensures |r| == |args| && forall i :: 0 <= i < |args| ==> r[i] == args[i].chain
  {
    seq(|args|, i requires 0 <= i < |args| => args[i].chain)
  }

  /** `__call__`. Several arguments must all be chains: any other value among
      them would make a later rendering fail. */
  function Call<T, V, R, E>(c: Chain, args: seq<Arg<V>>, prog: Provider<T, V, R, E>): (r: CallResult<R, E>)
    requires |args| > 1 ==> AllChains(args)
    ensures r.NoValueToCast? <==> |args| == 0
    ensures r.Casted? <==> |args| == 1 && args[0].ValueArg?
    ensures r.Extended? ==> r.chain.Fn? && r.chain.pred == c
    ensures |args| == 1 && args[0].NoneArg? ==> r == Extended(Fn(Unspecified, c))
    ensures |args| == 1 && args[0].ChainArg? && IsEmpty(args[0].chain) ==>
      r == Extended(Fn(Listed([Attr(args[0].chain, "_")]), c))
    ensures |args| > 1 || (|args| == 1 && args[0].ChainArg? && !IsEmpty(args[0].chain)) ==>
      r == Extended(Fn(Listed(ChainsOf(args)), c))
    ensures |args| == 1 && args[0].ValueArg? ==> r == Casted(Cast(c, args[0].value, prog))
  {
    if |args| == 0 then NoValueToCast
    else if |args| == 1 && args[0].ChainArg? && IsEmpty(args[0].chain) then
      Extended(Fn(Listed([Attr(args[0].chain, "_")]), c))
    else if |args| == 1 && args[0].NoneArg? then
      Extended(Fn(Unspecified, c))
    else if |args| > 1 || args[0].ChainArg? then
      Extended(Fn(Listed(ChainsOf(args)), c))
    else
      Casted(Cast(c, args[0].value, prog))
  }

  /** A function node renders its parameter list from the parameters'
      renderings alone. */
  lemma RenderListed(c: Chain, ps: seq<Chain>, parts: seq<string>)
    requires RenderAll(ps) == parts
    ensures Render(Fn(Listed(ps), c)) == Then(Render(c), "(" + Join(parts, ", ") + ")")
  {
    RenderFunction(c, Listed(ps));
  }

  /** An empty chain extended by `_` renders as the lone token `*`. */
  lemma StarAlone(e: Chain)
    requires IsEmpty(e)
    ensures Render(Attr(e, "_")) == "*"
  {
    RenderAttr(e, "_");
    assert IsPointerRun("_");
    assert Repeat('*', 1) == "*";
  }

  /** `c(*)`: a function node whose one parameter is the lone token `*`. */
  lemma RenderPointerParameter(c: Chain, e: Chain)
    requires IsEmpty(e)
    ensures Render(Fn(Listed([Attr(e, "_")]), c)) == Then(Render(c), "(*)")
  {
    var star := Attr(e, "_");
    StarAlone(e);
    assert RenderAll([star]) == ["*"];
    RenderListed(c, [star], ["*"]);
    PointerParameterText();
  }

  /** The string identity behind RenderPointerParameter, stated apart from
      any chain so that the solver checks it on literals alone. */
  lemma PointerParameterText()
    ensures "(" + Join(["*"], ", ") + ")" == "(*)"
  {
  }

  /** A lone empty chain as argument stands for a pointer: `_.x(_)` builds
      the same node as `_.x(_._)`, rendered `(*)`. */
  lemma EmptyArgumentIsPointer<T, V, R, E>(c: Chain, e: Chain, prog: Provider<T, V, R, E>)
    requires IsEmpty(e)
    ensures Call(c, [ChainArg(e)], prog) == Call(c, [ChainArg(Attr(e, "_"))], prog)
    ensures Render(Call(c, [ChainArg(e)], prog).chain) == Then(Render(c), "(*)")
  {
    var star := Attr(e, "_");
    var starArg: seq<Arg<V>> := [ChainArg(star)];
    assert ChainsOf(starArg) == [star];
    RenderPointerParameter(c, e);
  }

  /** With two or more arguments the chains become the parameters as they
      are: an empty one is not turned into a pointer, and renders as nothing
      between its commas. */
  lemma ArgumentsKeptVerbatim<T, V, R, E>(c: Chain, args: seq<Arg<V>>, prog: Provider<T, V, R, E>)
    requires |args| > 1 && AllChains(args)
    ensures var r := Call(c, args, prog);
      r.Extended? && r.chain.params.chains == ChainsOf(args) &&
      Render(r.chain) == Then(Render(c), "(" + Join(RenderAll(ChainsOf(args)), ", ") + ")")
  {
    RenderFunction(c, Listed(ChainsOf(args)));
  }

  /** A provider that answers a type lookup with the name it was asked for,
      and a cast with the pair it was given. */
  function Recorder<V>(): Provider<string, V, (string, V), string>
  {
    Provider(name => Success(name), (t, v) => Success((t, v)))
  }

  /** The terminal call hands the type lookup exactly the rendering of the
      chain, and the cast exactly the value it was called with. */
  lemma TerminalCallPassesRendering<V>(c: Chain, v: V)
    ensures Call(c, [ValueArg(v)], Recorder<V>()) == Casted(Success((Render(c), v)))
  {
  }

  /** The outcome of a terminal call depends on the chain only through its
      rendering; a failing lookup or cast is passed back unchanged. */
  lemma TerminalCallOutcome<T, V, R, E>(c: Chain, v: V, prog: Provider<T, V, R, E>)
    ensures var r := Call(c, [ValueArg(v)], prog);
      match prog.lookupType(Render(c))
      case Failure(e) => r == Casted(Failure(e))
      case Success(t) => r == Casted(prog.cast(t, v))
  {
  }

  /** `ks` successive pointer accesses, the i-th with `ks[i]` underscores. */
  function Pointers(c: Chain, ks: seq<nat>): Chain
  {
    if ks == [] then c else Attr(Pointers(c, ks[..|ks| - 1]), Repeat('_', ks[|ks| - 1]))
  }

  /** The rendering of those accesses after a non-empty chain: one
      space-separated run of `*` per access. */
  function StarGroups(ks: seq<nat>): string
  {
    if ks == [] then "" else StarGroups(ks[..|ks| - 1]) + " " + Repeat('*', ks[|ks| - 1])
  }

  lemma RewriteUnderscores(k: nat)
    requires k > 0
    ensures Rewrite(Repeat('_', k)) == Repeat('*', k)
  {
    assert IsPointerRun(Repeat('_', k));
  }

  lemma CountThen(ch: char, a: string, b: string)
    requires ch != ' '
    ensures Count(ch, Then(a, b)) == Count(ch, a) + Count(ch, b)
  {
    if a != "" {
      CountConcat(ch, a + " ", b);
      CountConcat(ch, a, " ");
      assert Count(ch, " ") == 0 by { assert " "[..0] == ""; }
    } else {
      assert Count(ch, a) == 0;
    }
  }

  /** Pointer accesses add exactly as many `*` to the rendering as they use
      underscores, however the underscores are split between accesses. */
  lemma {:induction false} StarCount(c: Chain, ks: seq<nat>)
    requires forall i :: 0 <= i < |ks| ==> ks[i] > 0
    ensures Count('*', Render(Pointers(c, ks))) == Count('*', Render(c)) + Sum(ks)
    decreases |ks|
  {
    if ks != [] {
      var init, k := ks[..|ks| - 1], ks[|ks| - 1];
      StarCount(c, init);
      RewriteUnderscores(k);
      RenderAttr(Pointers(c, init), Repeat('_', k));
      CountThen('*', Render(Pointers(c, init)), Repeat('*', k));
      CountRepeat('*', k);
    }
  }

  /** One pointer access with `k` underscores appends a token of `k` stars. */
  lemma StarStep(p: Chain, k: nat)
    requires k > 0
    ensures Render(Attr(p, Repeat('_', k))) == Then(Render(p), Repeat('*', k))
  {
    RewriteUnderscores(k);
    RenderAttr(p, Repeat('_', k));
  }

  lemma SpacingStep(rc: string, groups: string, rp: string, stars: string)
    requires rc != "" && rp == rc + groups
    ensures Then(rp, stars) == rc + (groups + " " + stars)
  {
  }

  /** The split does show in the spacing: each access is its own
      space-separated token, so `.__` renders `**` and `._._` renders `* *`. */
  lemma {:induction false} PointerSpacing(c: Chain, ks: seq<nat>)
    requires !IsEmpty(c)
    requires forall i :: 0 <= i < |ks| ==> ks[i] > 0
    ensures Render(Pointers(c, ks)) == Render(c) + StarGroups(ks)
    decreases |ks|
  {
    if ks != [] {
      var init, k := ks[..|ks| - 1], ks[|ks| - 1];
      var p, stars := Pointers(c, init), Repeat('*', k);
      PointerSpacing(c, init);
      StarStep(p, k);
      assert StarGroups(ks) == StarGroups(init) + " " + stars;
      SpacingStep(Render(c), StarGroups(init), Render(p), stars);
    }
  }
}
