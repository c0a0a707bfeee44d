/** The self-test at the end of easycast.py. Its test subclass replaces the
    cast by the text `(<type>)<value>`; DemoCall states that format for every
    chain, and the examples state the type string and the value that each
    line of the test hands to the cast, under the recording provider. */
module EasyCastDemo {
  import opened Wrappers
  import opened Text
  import opened EasyCast

  /** The test subclass's cast: no lookup, just `'(%s)%s' % (type, value)`. */
  function Demo(): Provider<string, int, string, string>
  {
    Provider(name => Success(name), (t, v) => Success("(" + t + ")" + IntToString(v)))
  }

  /** The test's terminal call prints the rendering in parentheses before the value. */
  lemma DemoCall(c: Chain, v: int)
    ensures Call(c, [ValueArg(v)], Demo()) == Casted(Success("(" + Render(c) + ")" + IntToString(v)))
  {
  }

  /** Calling a chain that renders `text` with 1 hands `text` and 1 to the cast. */
  lemma CastsOne(c: Chain, text: string)
    requires Render(c) == text
    ensures Call(c, [ValueArg(1)], Recorder<int>()) == Casted(Success((text, 1)))
  {
    TerminalCallPassesRendering(c, 1);
  }

  /** A name with a character other than `_` is kept as it is. */
  lemma Kept(name: string, k: nat)
    requires k < |name| && name[k] != '_'
    ensures Rewrite(name) == name
  {
  }

  /** `c.name` for a name with a character other than `_` at position `k`. */
  lemma RenderWord(c: Chain, name: string, k: nat)
    requires k < |name| && name[k] != '_'
    ensures Render(Attr(c, name)) == Then(Render(c), name)
  {
    Kept(name, k);
    RenderAttr(c, name);
  }

  /** `c._`: one more `*` token. */
  lemma RenderStar(c: Chain)
    ensures Render(Attr(c, "_")) == Then(Render(c), "*")
  {
    RenderAttr(c, "_");
    assert IsPointerRun("_");
    assert Repeat('*', 1) == "*";
  }

  /** `c.__`: one `**` token. */
  lemma RenderDoubleStar(c: Chain)
    ensures Render(Attr(c, "__")) == Then(Render(c), "**")
  {
    RenderAttr(c, "__");
    assert IsPointerRun("__");
    assert Repeat('*', 2) == "**";
  }

  /** `_.int` */
  function Int(): Chain
  {
    Attr(Root, "int")
  }

  /** `_.int(_)`, rendered `int (*)`: the grouped pointer `(*)` that a
      following parameter list or index applies to. */
  function IntGroupedPointer(): Chain
  {
    Fn(Listed([Attr(Root, "_")]), Int())
  }

  lemma IntRenders()
    ensures Render(Int()) == "int"
  {
    RenderWord(Root, "int", 0);
  }

  lemma IntGroupedPointerRenders()
    ensures Call(Int(), [ChainArg(Root)], Recorder<int>()) == Extended(IntGroupedPointer())
    ensures Render(IntGroupedPointer()) == "int (*)"
  {
    IntRenders();
    EmptyArgumentIsPointer(Int(), Root, Recorder<int>());
  }

  /** `_.int(1)` */
  lemma IntExample()
    ensures Call(Int(), [ValueArg(1)], Recorder<int>()) == Casted(Success(("int", 1)))
  {
    IntRenders();
    CastsOne(Int(), "int");
  }

  /** `_.int._(1)` */
  lemma IntPointerExample()
    ensures Call(Attr(Int(), "_"), [ValueArg(1)], Recorder<int>()) == Casted(Success(("int *", 1)))
  {
    IntRenders();
    RenderStar(Int());
    CastsOne(Attr(Int(), "_"), "int *");
  }

  /** `_.int._._(1)`: two single pointer accesses, two `*` tokens. */
  lemma IntPointerPointerExample()
    ensures Call(Attr(Attr(Int(), "_"), "_"), [ValueArg(1)], Recorder<int>()) == Casted(Success(("int * *", 1)))
  {
    IntRenders();
    RenderStar(Int());
    RenderStar(Attr(Int(), "_"));
    CastsOne(Attr(Attr(Int(), "_"), "_"), "int * *");
  }

  /** `_.int.__(1)`: one double pointer access, one `**` token. */
  lemma IntDoublePointerExample()
    ensures Call(Attr(Int(), "__"), [ValueArg(1)], Recorder<int>()) == Casted(Success(("int **", 1)))
  {
    IntRenders();
    RenderDoubleStar(Int());
    CastsOne(Attr(Int(), "__"), "int **");
  }

  /** `_.<kind>.foo._` for a tag keyword. */
  lemma TagPointer(kind: string)
    requires |kind| > 0 && kind[0] != '_'
    ensures Render(Attr(Attr(Attr(Root, kind), "foo"), "_")) == kind + " foo *"
  {
    RenderWord(Root, kind, 0);
    RenderWord(Attr(Root, kind), "foo", 0);
    RenderStar(Attr(Attr(Root, kind), "foo"));
  }

  /** `_.struct.foo._(1)` */
  lemma StructExample()
    ensures Call(Attr(Attr(Attr(Root, "struct"), "foo"), "_"), [ValueArg(1)], Recorder<int>())
      == Casted(Success(("struct foo *", 1)))
  {
    TagPointer("struct");
    CastsOne(Attr(Attr(Attr(Root, "struct"), "foo"), "_"), "struct foo *");
  }

  /** `_.enum.foo._(1)` */
  lemma EnumExample()
    ensures Call(Attr(Attr(Attr(Root, "enum"), "foo"), "_"), [ValueArg(1)], Recorder<int>())
      == Casted(Success(("enum foo *", 1)))
  {
    TagPointer("enum");
    CastsOne(Attr(Attr(Attr(Root, "enum"), "foo"), "_"), "enum foo *");
  }

  /** `_.struct.<name>._` for a member name that is not a run of underscores. */
  lemma StructNamePointer(name: string, k: nat)
    requires k < |name| && name[k] != '_'
    ensures Render(Attr(Attr(Attr(Root, "struct"), name), "_")) == "struct " + name + " *"
  {
    RenderWord(Root, "struct", 0);
    RenderWord(Attr(Root, "struct"), name, k);
    RenderStar(Attr(Attr(Root, "struct"), name));
  }

  /** The string identity behind StringifyNameExample, checked on literals alone. */
  lemma StringifyNameText()
    ensures "struct " + "__stringify" + " *" == "struct __stringify *"
  {
  }

  /** `_.struct.__stringify._(1)`: outside a class body the name is not
      mangled, so it reaches `__getattr__` and becomes a plain token. */
  lemma StringifyNameExample()
    ensures Call(Attr(Attr(Attr(Root, "struct"), "__stringify"), "_"), [ValueArg(1)], Recorder<int>())
      == Casted(Success(("struct __stringify *", 1)))
  {
    StructNamePointer("__stringify", 2);
    StringifyNameText();
    CastsOne(Attr(Attr(Attr(Root, "struct"), "__stringify"), "_"), "struct __stringify *");
  }

  /** The string identity behind CastNameExample, checked on literals alone. */
  lemma CastNameText()
    ensures "struct " + "__cast" + " *" == "struct __cast *"
  {
  }

  /** `_.struct.__cast._(1)`: likewise a plain token. */
  lemma CastNameExample()
    ensures Call(Attr(Attr(Attr(Root, "struct"), "__cast"), "_"), [ValueArg(1)], Recorder<int>())
      == Casted(Success(("struct __cast *", 1)))
  {
    StructNamePointer("__cast", 2);
    CastNameText();
    CastsOne(Attr(Attr(Attr(Root, "struct"), "__cast"), "_"), "struct __cast *");
  }

  lemma JoinPair(ra: string, rb: string)
    ensures Join([ra, rb], ", ") == ra + ", " + rb
  {
    JoinSnoc([ra], rb, ", ");
    assert [ra] + [rb] == [ra, rb];
  }

  lemma PairRenderings(a: Chain, b: Chain)
    ensures RenderAll([a, b]) == [Render(a), Render(b)]
  {
  }

  /** A call with two chains makes them, in order, the parameters of a new function node. */
  lemma TwoParameters<T, R, E>(c: Chain, a: Chain, b: Chain, prog: Provider<T, int, R, E>)
    ensures Call(c, [ChainArg(a), ChainArg(b)], prog) == Extended(Fn(Listed([a, b]), c))
  {
    var args: seq<Arg<int>> := [ChainArg(a), ChainArg(b)];
    assert ChainsOf(args) == [a, b];
  }

  /** Two parameters whose renderings are known render, in order, inside
      one pair of parentheses. */
  lemma RenderKnownPair(c: Chain, a: Chain, b: Chain, rc: string, ra: string, rb: string)
    requires Render(c) == rc && Render(a) == ra && Render(b) == rb
    ensures Render(Fn(Listed([a, b]), c)) == Then(rc, "(" + ra + ", " + rb + ")")
  {
    PairRenderings(a, b);
    RenderListed(c, [a, b], [ra, rb]);
    JoinPair(ra, rb);
    InParentheses(rc, Join([ra, rb], ", "), ra, rb);
  }

  /** A joined pair of parameters inside parentheses, regrouped. Stated
      apart so that RenderKnownPair needs no reasoning about strings. */
  lemma InParentheses(rc: string, joined: string, ra: string, rb: string)
    requires joined == ra + ", " + rb
    ensures Then(rc, "(" + joined + ")") == Then(rc, "(" + ra + ", " + rb + ")")
  {
  }

  /** `_.int[None]` and `_.float.__`, the two parameters of the next example. */
  lemma ParameterRenderings()
    ensures Render(Index(Int(), None)) == "int []"
    ensures Render(Attr(Attr(Root, "float"), "__")) == "float **"
  {
    IntRenders();
    RenderIndex(Int(), None);
    RenderWord(Root, "float", 0);
    RenderDoubleStar(Attr(Root, "float"));
  }

  /** `_.int(_)(_.int[None], _.float.__)`, a pointer to a function taking
      an int array and a float pointer-pointer. */
  function FunctionPointer(): Chain
  {
    Fn(Listed([Index(Int(), None), Attr(Attr(Root, "float"), "__")]), IntGroupedPointer())
  }

  lemma FunctionPointerRenders()
    ensures Call(IntGroupedPointer(), [ChainArg(Index(Int(), None)), ChainArg(Attr(Attr(Root, "float"), "__"))], Recorder<int>())
      == Extended(FunctionPointer())
    ensures Render(FunctionPointer()) == "int (*) (int [], float **)"
  {
    IntGroupedPointerRenders();
    ParameterRenderings();
    TwoParameters(IntGroupedPointer(), Index(Int(), None), Attr(Attr(Root, "float"), "__"), Recorder<int>());
    RenderKnownPair(IntGroupedPointer(), Index(Int(), None), Attr(Attr(Root, "float"), "__"), "int (*)", "int []", "float **");
    FunctionPointerText();
  }

  /** The string identity behind FunctionPointerRenders, stated apart from
      any chain so that the solver checks it on literals alone. */
  lemma FunctionPointerText()
    ensures Then("int (*)", "(" + "int []" + ", " + "float **" + ")") == "int (*) (int [], float **)"
  {
  }

  /** `_.int(_)(_.int[None], _.float.__)(1)` */
  lemma FunctionPointerExample()
    ensures Call(FunctionPointer(), [ValueArg(1)], Recorder<int>()) == Casted(Success(("int (*) (int [], float **)", 1)))
  {
    FunctionPointerRenders();
    CastsOne(FunctionPointer(), "int (*) (int [], float **)");
  }

  /** `_.int(_)(None)(1)`: a pointer to a function with no parameter list. */
  lemma UnspecifiedParametersExample()
    ensures Call(IntGroupedPointer(), [NoneArg], Recorder<int>()) == Extended(Fn(Unspecified, IntGroupedPointer()))
    ensures Call(Fn(Unspecified, IntGroupedPointer()), [ValueArg(1)], Recorder<int>()) == Casted(Success(("int (*) ()", 1)))
  {
    IntGroupedPointerRenders();
    RenderFunction(IntGroupedPointer(), Unspecified);
    CastsOne(Fn(Unspecified, IntGroupedPointer()), "int (*) ()");
  }

  /** `_.int(_)[None](1)`: a pointer to an int array, the docstring's
      `_.int(_)[10]` without a size. */
  lemma PointerToArrayExample()
    ensures Call(Index(IntGroupedPointer(), None), [ValueArg(1)], Recorder<int>()) == Casted(Success(("int (*) []", 1)))
  {
    IntGroupedPointerRenders();
    RenderIndex(IntGroupedPointer(), None);
    CastsOne(Index(IntGroupedPointer(), None), "int (*) []");
  }

  /** `_.int[10]` renders `int [10]`, with no spaces inside the brackets. */
  lemma SizedArrayExample()
    ensures Render(Index(Int(), Some(10))) == "int [10]"
  {
    IntRenders();
    RenderIndex(Int(), Some(10));
    assert IntToString(10) == "10" by {
      assert NatToString(1) == "1";
      assert NatToString(10) == NatToString(1) + [DigitChar(0)];
    }
  }

  /** `_.int(_, _)`: with two arguments the empty chains are not made
      pointers, so the parameter list renders `(, )`. */
  lemma TwoEmptyArgumentsExample()
    ensures Call(Int(), [ChainArg(Root), ChainArg(Root)], Recorder<int>()) == Extended(Fn(Listed([Root, Root]), Int()))
    ensures Render(Fn(Listed([Root, Root]), Int())) == "int (, )"
  {
    IntRenders();
    TwoParameters(Int(), Root, Root, Recorder<int>());
    RenderKnownPair(Int(), Root, Root, "int", "", "");
    assert Then("int", "(" + "" + ", " + "" + ")") == "int (, )";
  }
}
