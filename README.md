# easycast: a verified model of drgn's type-expression builder

`easycast` (drgn/helpers/common/easycast.py) lets a drgn user write a C type
as a chain of Python attribute accesses, indexing and calls on an empty
instance `_`, and cast a value to it: `_.struct.foo._(v)` casts `v` to
`struct foo *`. Each step makes a new node that points back to the node it
was made from:

- attribute access adds an identifier token; a name made only of underscores
  becomes as many `*` (`_.int.__` is `int **`);
- indexing adds an array node `[]` that carries a size (`_.int[10]`);
- calling with `None`, with chains, or with several arguments adds a function
  node `()` that carries its parameter chains (`_.int(_)(_.int, _.int)`);
- calling with one plain value renders the chain (walking from the tail back
  to the first node without a token, normally the root `_`, then reversing
  and joining with single spaces) and asks the host
  program for that type and for the cast.

The model is in four modules:

- `EasyCast` (easycast.dfy): the chain as a datatype (`Root`, `Tok`, `Arr`,
  `Fn`), the underscore rewrite, attribute access, indexing, call dispatch,
  the delegation to the host, the rendering as pure functions, and
  `__stringify` as an imperative method with a loop, proved equal to the
  rendering function. The construction steps are pure functions because the
  source never changes an existing node; only the rendering walk updates
  variables step by step.
- `Text` (text.dfy): `sep.join`, `list.reverse`, `str` of an integer with its
  inverse, and character counting.
- `Wrappers` (wrappers.dfy): `Option` and `Result`.
- `EasyCastDemo` (demo.dfy): the self-test at the end of easycast.py. Its
  test subclass replaces the cast by the text `(<type>)<value>`; `DemoCall`
  proves that format for every chain, and one lemma per casting line of
  the test (lines 126-134, 138 and 139) states the type string and the
  value that line hands to the cast.

The host's `prog.type(name)` and `drgn.cast(type, value)` are not modelled.
They are the two fields of a `Provider`, two arbitrary functions that may
fail. `Call`, `Cast`, `TerminalCallOutcome`, `EmptyArgumentIsPointer` and
`ArgumentsKeptVerbatim` hold for every provider. `TerminalCallPassesRendering`
and the examples use a recording provider that answers with the type name
and the value it was given, so they show exactly what a terminal call passes
to the host; `DemoCall` uses the test's own cast.

Where the class docstring and the code differ, the model follows the code:

- The docstring (easycast.py:15-16) offers `_.int._._` and `_.int.__` as two
  ways to write an int pointer pointer. They give the same number of `*`, but
  not the same string: every access is its own space-separated token, so
  `_.int._._` renders `int * *` and `_.int.__` renders `int **`
  (`StarCount`, `PointerSpacing`, `IntPointerPointerExample`,
  `IntDoublePointerExample`).
- The docstring (easycast.py:25) writes the function pointer type as
  `int (*)(int, int)`. The code puts a space between every two fragments, so
  the chain renders `int (*) (int, int)` (`RenderFunction`,
  `FunctionPointerRenders`). Inside brackets and parentheses the code adds no
  space: `int [10]`, `int ()`.

## Model

| member | source | states |
|---|---|---|
| EasyCast.Rewrite | drgn/helpers/common/easycast.py:41-42 | a new token keeps its length; a non-empty run of `_` becomes all `*`, any other token (`int`, `_a`, the empty name) is kept unchanged |
| EasyCast.Attr | drgn/helpers/common/easycast.py:49-50 | attribute access gives a new token node, distinct from the receiver, whose predecessor is the receiver and whose token is the rewritten name |
| EasyCast.Index | drgn/helpers/common/easycast.py:52-55 | indexing gives a new `[]` node, distinct from the receiver, whose predecessor is the receiver and whose size is the index |
| EasyCast.Fragments | drgn/helpers/common/easycast.py:60-83 | the walk collects nothing exactly when the tail's token is unset, and no fragment it collects is empty (their order is stated by `RenderNode`) |
| EasyCast.Render | drgn/helpers/common/easycast.py:84-85 | the rendering of a chain is empty exactly when its tail token is unset (the root `_`) |
| EasyCast.RenderNode | drgn/helpers/common/easycast.py:59-85 | the rendering of a node is the rendering of its predecessor, then a single space (only when that rendering is non-empty), then the node's own fragment, so fragments appear root-to-tail |
| EasyCast.RenderAttr | drgn/helpers/common/easycast.py:79-80 | `c.name` renders as `c`'s rendering followed by the rewritten name, e.g. `struct foo *` |
| EasyCast.RenderIndex | drgn/helpers/common/easycast.py:72-77 | `c[sz]` renders as `c`'s rendering followed by `[` decimal size `]`, or `[]` when the size is None |
| EasyCast.ArrayFragmentRoundTrip | drgn/helpers/common/easycast.py:73-76 | an array fragment is bracketed and the size it was made from can be read back out of it, None included |
| EasyCast.RenderFunction | drgn/helpers/common/easycast.py:63-69 | a function node renders as `()` when params is None, otherwise as each parameter chain's own rendering, in order, joined by `, ` inside parentheses |
| EasyCast.StringifyNode | drgn/helpers/common/easycast.py:63-80 | the fragment the loop body makes of one node (its token, its bracketed size, or its parameters rendered in order by the same method and joined by `, `) is exactly that node's fragment in the rendering |
| EasyCast.RenderAll | drgn/helpers/common/easycast.py:67-69 | a parameter list renders to one string per parameter, in order, each the rendering of that parameter chain |
| EasyCast.Stringify | drgn/helpers/common/easycast.py:59-85 | the loop that walks predecessor links, collects fragments (rendering parameters by the same method), reverses and joins, returns exactly the rendering of the chain |
| EasyCast.Cast | drgn/helpers/common/easycast.py:89-91 | the host's type lookup is given the chain's rendering; a lookup failure is returned unchanged, otherwise the result is the host's cast of the unchanged value to the type found |
| EasyCast.Call | drgn/helpers/common/easycast.py:93-110 | no arguments: "No value to cast"; a cast happens exactly for one plain value; one None: a `()` node without parameters; one empty chain: a `()` node whose one parameter is that chain extended by `_`; one non-empty chain or several chains: a `()` node with the arguments as parameters; every new node's predecessor is the receiver |
| EasyCast.EmptyArgumentIsPointer | drgn/helpers/common/easycast.py:97-100 | `c(_)` builds the same node as `c(_._)`, which renders as `c`'s rendering followed by `(*)` |
| EasyCast.ArgumentsKeptVerbatim | drgn/helpers/common/easycast.py:106-109 | with two or more arguments the parameters are the argument chains as given, and empty ones are not turned into pointers |
| EasyCast.TerminalCallPassesRendering | drgn/helpers/common/easycast.py:89-91 | with a recording host, a terminal call reports that it was asked for exactly the chain's rendering and given exactly the value passed in |
| EasyCast.TerminalCallOutcome | drgn/helpers/common/easycast.py:110 | a terminal call depends on the chain only through its rendering; host failures come back unchanged |
| EasyCast.StarCount | drgn/helpers/common/easycast.py:41-42 | any sequence of pointer accesses adds as many `*` to the rendering as the accesses use underscores in total |
| EasyCast.PointerSpacing | drgn/helpers/common/easycast.py:15-16 | after a non-empty chain, each pointer access adds its own space-separated run of `*` |
| Text.JoinCons | drgn/helpers/common/easycast.py:67-69 | `sep.join` of two or more pieces is the first piece, the separator, then the join of the rest: the pieces appear in order with `sep` between neighbours |
| Text.JoinSnoc | drgn/helpers/common/easycast.py:85 | appending a piece to a join adds the separator before it only when there were pieces already |
| Text.JoinEmptyIff | drgn/helpers/common/easycast.py:85 | a join of non-empty pieces is empty exactly when there are no pieces |
| Text.Reversed | drgn/helpers/common/easycast.py:84 | the reversal puts element `|s|-1-i` at position `i` |
| Text.NatToString | drgn/helpers/common/easycast.py:74 | `str` of a non-negative size is a non-empty string of decimal digits without a leading zero |
| Text.IntToStringRoundTrip | drgn/helpers/common/easycast.py:74 | the decimal text of any integer size, negative ones included, reads back as that integer |
| Text.DecimalRoundTrip | drgn/helpers/common/easycast.py:74 | the digits of a non-negative integer read back as that integer |
| EasyCastDemo.DemoCall | drgn/helpers/common/easycast.py:120-122 | under the test subclass's cast, a terminal call yields `(` rendering `)` value |
| EasyCastDemo.IntExample | drgn/helpers/common/easycast.py:126 | `_.int(1)` casts 1 to `int` |
| EasyCastDemo.IntPointerExample | drgn/helpers/common/easycast.py:127 | `_.int._(1)` casts 1 to `int *` |
| EasyCastDemo.IntPointerPointerExample | drgn/helpers/common/easycast.py:128 | `_.int._._(1)` casts 1 to `int * *`: two accesses, two tokens |
| EasyCastDemo.IntDoublePointerExample | drgn/helpers/common/easycast.py:129 | `_.int.__(1)` casts 1 to `int **`: one access, one token |
| EasyCastDemo.StructExample | drgn/helpers/common/easycast.py:130 | `_.struct.foo._(1)` casts 1 to `struct foo *` |
| EasyCastDemo.EnumExample | drgn/helpers/common/easycast.py:131 | `_.enum.foo._(1)` casts 1 to `enum foo *` |
| EasyCastDemo.StringifyNameExample | drgn/helpers/common/easycast.py:138 | `_.struct.__stringify._(1)`, outside any class, casts 1 to `struct __stringify *` |
| EasyCastDemo.CastNameExample | drgn/helpers/common/easycast.py:139 | `_.struct.__cast._(1)`, outside any class, casts 1 to `struct __cast *` |
| EasyCastDemo.FunctionPointerRenders | drgn/helpers/common/easycast.py:132 | `_.int(_)` called with `_.int[None]` and `_.float.__` builds a function node with those two parameters, rendering `int (*) (int [], float **)` |
| EasyCastDemo.FunctionPointerExample | drgn/helpers/common/easycast.py:132 | calling that node with 1 casts 1 to `int (*) (int [], float **)` |
| EasyCastDemo.UnspecifiedParametersExample | drgn/helpers/common/easycast.py:133 | `_.int(_)(None)` builds a function node without parameters, and calling it with 1 casts 1 to `int (*) ()` |
| EasyCastDemo.PointerToArrayExample | drgn/helpers/common/easycast.py:134 | `_.int(_)[None](1)`, a pointer to an int array without a size, casts 1 to `int (*) []` |
| EasyCastDemo.SizedArrayExample | drgn/helpers/common/easycast.py:34 | `_.int[10]` renders `int [10]` |
| EasyCastDemo.TwoEmptyArgumentsExample | drgn/helpers/common/easycast.py:106-109 | `_.int(_, _)` builds a function node whose two parameters are the empty chains as given, rendering `int (, )` |

## Left out

- The host program (`prog.type`, `drgn.cast`): its type universe and cast rules are not modelled. The model takes them as an arbitrary `Provider` of two functions that may fail, and proves what is passed to them.
- The `prog` binding that every node copies from its predecessor: the nodes do not carry it. The terminal call is given the provider, which is the one every node of the chain inherited from the root. The prog of a parameter chain is never used.
- EasyCast.Call: requires every argument of a multi-argument call to be a chain. In Python the call succeeds with other arguments, and the node it builds fails only later, when it is rendered (`param.__stringify()` on a non-easycast value).
- Python's attribute machinery: `__getattr__` runs only for attributes that do not exist. So `.sz` on an array node, `.params` on a function node, and the mangled name `_easycast__stringify` return fields or methods instead of new nodes. The model has separate constructors for token, array and function nodes. The self-test's line 137, which prints the bound method `_easycast__stringify`, is therefore not modelled. Lines 138 and 139 run outside any class body, so their `__stringify` and `__cast` are not mangled and become plain tokens (`StringifyNameExample`, `CastNameExample`).
- A node built directly with a token and no predecessor (`easycast('int')`): the walk reaches `None` and raises. Every chain in the model ends at the root, so this error is not expressible.
- A root built with the default `prog=None`: a terminal call then fails with `AttributeError` at easycast.py:90. The model always passes a provider to the terminal call.
- A token literally named `()` or `[]`, which Python would confuse with the sentinels, is not modelled. In the model such a `Tok` renders as itself.
- `str(sz)` for arbitrary Python objects: the size is an `Option<int>`, rendered in decimal.
- Object identity: nodes are values. "A new node" is modelled as a node distinct from the receiver whose predecessor is the receiver.
- The self-test's `print` calls: each example states what its line hands to the cast (the type string and the value); `DemoCall` states the text the test's cast makes of them.
