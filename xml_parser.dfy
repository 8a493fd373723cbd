/** The configuration builder: a SAX content handler that turns the start,
    characters and end events of an analysis description into a tree of tag
    objects. An opening tag creates an object of the tag class with that name
    under the current object and makes it current. A closing tag lets the
    current object write what it has gathered into its parent, then makes the
    parent current again.

    The objects live in an arena: `Root.nodes[0]` is the handler itself and
    every other entry is a tag object, referred to by its index. A Python
    attribute of an object is an entry of its `fields` map. A reference from
    one object to another is the other object's index, so two lists that hold
    the same object hold the same index. */
module XmlParser {
  import opened Wrappers
  import opened Builtins

  /** The tag classes of the configuration language. */
  datatype Tag =
    | Analysis | MaxOrder | Directory | Label | Path | Tauval | Lval
    | SwapEndian | Complex | Ntherm | Normalization | Filenamecontains
    | Actions | Show | Extrapolate | Plot | Therm

  /** The Python name of each tag class. */
  function ClassName(t: Tag): string
  {
    match t
    case Analysis => "Analysis"
    case MaxOrder => "Max_order"
    case Directory => "Directory"
    case Label => "Label"
    case Path => "Path"
    case Tauval => "Tauval"
    case Lval => "Lval"
    case SwapEndian => "Swap_endian"
    case Complex => "Complex"
    case Ntherm => "Ntherm"
    case Normalization => "Normalization"
    case Filenamecontains => "Filenamecontains"
    case Actions => "Actions"
    case Show => "Show"
    case Extrapolate => "Extrapolate"
    case Plot => "Plot"
    case Therm => "Therm"
  }

  /** Every tag class, in the order the source defines them. */
  const AllTags: seq<Tag> := [Analysis, MaxOrder, Directory, Label, Path, Tauval, Lval,
    SwapEndian, Complex, Ntherm, Normalization, Filenamecontains,
    Actions, Show, Extrapolate, Plot, Therm]

  /** Where a tag class stands in `AllTags`. */
  function TagIndex(t: Tag): (k: nat)
    ensures k < |AllTags| && AllTags[k] == t
  {
    match t
    case Analysis => 0
    case MaxOrder => 1
    case Directory => 2
    case Label => 3
    case Path => 4
    case Tauval => 5
    case Lval => 6
    case SwapEndian => 7
    case Complex => 8
    case Ntherm => 9
    case Normalization => 10
    case Filenamecontains => 11
    case Actions => 12
    case Show => 13
    case Extrapolate => 14
    case Plot => 15
    case Therm => 16
  }

  /** The first of `ts` whose class is called `n`. */
  function Find(n: string, ts: seq<Tag>): (r: Option<Tag>)
    ensures r.Some? ==> ClassName(r.value) == n
    ensures r.None? ==> forall k :: 0 <= k < |ts| ==> ClassName(ts[k]) != n
  {
    if ts == [] then None
    else if ClassName(ts[0]) == n then Some(ts[0])
    else
      var r := Find(n, ts[1..]);
      assert r.None? ==> forall k :: 1 <= k < |ts| ==> ts[k] == ts[1..][k - 1];
      r
  }

  /** The class an opening tag instantiates (`eval` of the normalised name):
      the tag name lower-cased and then capitalised must be the name of a
      tag class, and no other name is one. */
  function TagOf(name: string): (r: Option<Tag>)
    ensures r.Some? ==> ClassName(r.value) == Capitalize(Lower(name))
    ensures r.None? ==> forall t :: ClassName(t) != Capitalize(Lower(name))
  {
    var r := Find(Capitalize(Lower(name)), AllTags);
    FindAll(Capitalize(Lower(name)));
    r
  }

  lemma {:induction false} FindAll(n: string)
    ensures Find(n, AllTags).None? ==> forall t :: ClassName(t) != n
  {
    forall t | Find(n, AllTags).None? ensures ClassName(t) != n {
      var k := TagIndex(t);
    }
  }

  /** `tagname`: the class name of an object, lower-cased. */
  function TagName(t: Tag): string
  {
    Lower(ClassName(t))
  }

  /** Capitalising a lower-cased class name gives the class name back, so
      the name `tagname` reports for an object opens an object of the same
      class again, whatever the case it is written in. */
  lemma {:induction false} TagNameDispatch(t: Tag, name: string)
    requires Lower(name) == TagName(t)
    ensures TagOf(name) == Some(t)
  {
    var c := ClassName(t);
    ClassNameCapitalised(t);
    CapitalizeLower(c);
    ClassNameInjective();
  }

  /** Each class name is a capital letter followed by small letters and
      underscores. */
  lemma {:induction false} ClassNameCapitalised(t: Tag)
    ensures ClassName(t) != [] && 'A' <= ClassName(t)[0] <= 'Z'
    ensures forall k :: 0 < k < |ClassName(t)| ==> 'a' <= ClassName(t)[k] <= 'z' || ClassName(t)[k] == '_'
  {
  }

  lemma {:induction false} ClassNameInjective()
    ensures forall t, u :: ClassName(t) == ClassName(u) ==> t == u
  {
  }

  lemma {:induction false} CapitalizeLower(c: string)
    requires c != [] && 'A' <= c[0] <= 'Z'
    requires forall k :: 0 < k < |c| ==> 'a' <= c[k] <= 'z' || c[k] == '_'
    ensures Capitalize(Lower(c)) == c
  {
    var l := Lower(c);
    assert UpperChar(l[0]) == c[0];
    assert Lower(l[1..]) == c[1..];
  }

  /** A Python value held by an attribute. `FloatText(s)` stands for
      `float(s)`, whose conversion is not modelled. */
  datatype Value =
    | Nothing
    | Flag(b: bool)
    | Int(i: int)
    | Number(x: real)
    | FloatText(s: string)
    | Text(s: string)
    | Ref(node: nat)
    | List(items: seq<Value>)
    | Dict(entries: map<string, Value>)

  /** Python truth testing: `None`, `False`, zero and empty containers are
      false. A float read from text counts as true here; no attribute that
      is truth-tested ever holds one. */
  predicate Falsy(v: Value)
  {
    match v
    case Nothing => true
    case Flag(b) => !b
    case Int(i) => i == 0
    case Number(x) => x == 0.0
    case FloatText(_) => false
    case Text(s) => s == ""
    case Ref(_) => false
    case List(items) => items == []
    case Dict(entries) => entries == map[]
  }

  /** A Python list of integers. */
  function Ints(xs: seq<int>): (v: Value)
    ensures v.List? && |v.items| == |xs|
    ensures forall k :: 0 <= k < |xs| ==> v.items[k] == Int(xs[k])
  {
    List(seq(|xs|, k requires 0 <= k < |xs| => Int(xs[k])))
  }

  /** The errors that abort building. An undefined tag makes the builder
      report the tag and end the program. */
  datatype BuildError =
    | UndefinedTag(name: string)
    | ValueError
    | AttributeError
    | TypeError
    | RuntimeError

  /** `[int(i) for i in s.split()]`: every whitespace-separated word of `s`
      read as an integer, or `None` when one of them is not one. */
  function IntsOf(s: string): Option<seq<int>>
  {
    ParseAll(Split(s))
  }

  function ParseAll(ws: seq<string>): (r: Option<seq<int>>)
    ensures r.Some? ==> |r.value| == |ws|
    ensures r.Some? ==> forall k :: 0 <= k < |ws| ==> ParseInt(ws[k]) == Some(r.value[k])
    ensures r.None? <==> exists k :: 0 <= k < |ws| && ParseInt(ws[k]).None?
  {
    if ws == [] then Some([])
    else
      WordsShifted(ws);
      match ParseInt(ws[0])
      case None => None
      case Some(x) =>
        match ParseAll(ws[1..])
        case None => None
        case Some(xs) => Some([x] + xs)
  }

  /** The words after the first are the words of `ws[1..]`. */
  lemma {:induction false} WordsShifted(ws: seq<string>)
    requires ws != []
    ensures forall k :: 1 <= k < |ws| ==> ws[k] == ws[1..][k - 1]
    ensures (exists k :: 0 <= k < |ws| && ParseInt(ws[k]).None?) <==>
            ParseInt(ws[0]).None? || exists k :: 0 <= k < |ws[1..]| && ParseInt(ws[1..][k]).None?
  {
    forall k | 0 <= k < |ws[1..]| ensures ws[1..][k] == ws[k + 1] { }
  }

  /** Integers written in decimal, separated by single spaces, as
      `" ".join(str(x) for x in xs)` writes them. */
  function Spaced(xs: seq<int>): string
  {
    if xs == [] then ""
    else if |xs| == 1 then Decimal(xs[0])
    else Decimal(xs[0]) + " " + Spaced(xs[1..])
  }

  /** Reading back a space-separated list of integers gives the list. */
  lemma {:induction false} IntsOfSpaced(xs: seq<int>)
    ensures IntsOf(Spaced(xs)) == Some(xs)
  {
    if xs != [] {
      SplitSpacedCons(xs);
      IntsOfSpaced(xs[1..]);
      ParseDecimal(xs[0]);
      ParseAllCons(Decimal(xs[0]), Split(Spaced(xs[1..])));
      assert xs == [xs[0]] + xs[1..];
    }
  }

  /** The first number of a spaced list is its first word. */
  lemma {:induction false} SplitSpacedCons(xs: seq<int>)
    requires xs != []
    ensures Split(Spaced(xs)) == [Decimal(xs[0])] + Split(Spaced(xs[1..]))
  {
    var d := Decimal(xs[0]);
    var tail := Spaced(xs[1..]);
    DecimalUnspaced(xs[0]);
    DecimalNoSpace(xs[0]);
    if |xs| == 1 {
      assert xs[1..] == [] && tail == "";
      SplitWord(d, tail);
      assert Spaced(xs) == d + tail;
    } else {
      var gap := " " + tail;
      assert Spaced(xs) == d + gap;
      SplitWord(d, gap);
      SplitSpace(tail);
    }
  }

  lemma {:induction false} ParseAllCons(w: string, ws: seq<string>)
    ensures ParseAll([w] + ws) ==
      match (ParseInt(w), ParseAll(ws))
      case (Some(x), Some(xs)) => Some([x] + xs)
      case _ => None
  {
    assert ([w] + ws)[1..] == ws;
  }

  lemma {:induction false} DecimalNoSpace(n: int)
    ensures NoSpace(Decimal(n))
  {
    var ds := Digits(if n < 0 then -n else n);
    assert forall k :: 0 <= k < |ds| ==> IsDigit(ds[k]);
  }

  lemma {:induction false} WordOf(w: string, rest: string)
    requires NoSpace(w)
    requires rest == [] || IsSpace(rest[0])
    ensures Word(w + rest) == w
  {
    if w != [] {
      assert (w + rest)[1..] == w[1..] + rest;
      WordOf(w[1..], rest);
    } else if rest != [] {
      assert (w + rest)[0] == rest[0];
    }
  }

  /** A word followed by nothing or by whitespace splits off as the first
      word. */
  lemma {:induction false} SplitWord(w: string, rest: string)
    requires w != [] && NoSpace(w)
    requires rest == [] || IsSpace(rest[0])
    ensures Split(w + rest) == [w] + Split(rest)
  {
    WordOf(w, rest);
    assert (w + rest)[|w|..] == rest;
  }

  lemma {:induction false} SplitSpace(rest: string)
    ensures Split(" " + rest) == Split(rest)
  {
    assert (" " + rest)[1..] == rest;
  }

  /** What an object is: the handler at the top, or an object of a tag
      class. */
  datatype Kind = Handler | Element(tag: Tag)

  /** One object of the tree: its class, its parent, its children in the
      order they were opened, the text gathered between its tags and its
      remaining attributes. */
  datatype Node = Node(kind: Kind, parent: nat, children: seq<nat>, buffer: string, fields: map<string, Value>)

  /** The arena is a tree: the handler comes first, every object comes after
      its parent, and the children of an object are objects whose parent it
      is. */
  predicate WellFormed(ns: seq<Node>)
  {
    && |ns| > 0 && ns[0].kind == Handler
    && (forall i :: 0 < i < |ns| ==> ns[i].parent < i && ns[i].kind.Element?)
    && (forall i, k :: 0 <= i < |ns| && 0 <= k < |ns[i].children| ==>
          i < ns[i].children[k] < |ns| && ns[ns[i].children[k]].parent == i)
  }

  /** `ms` keeps every object of `ns` with its class, parent, children and
      text; only attributes may differ. */
  predicate SameShape(ns: seq<Node>, ms: seq<Node>)
  {
    && |ms| == |ns|
    && forall j :: 0 <= j < |ns| ==>
         ms[j].kind == ns[j].kind && ms[j].parent == ns[j].parent
         && ms[j].children == ns[j].children && ms[j].buffer == ns[j].buffer
  }

  lemma {:induction false} SameShapeWellFormed(ns: seq<Node>, ms: seq<Node>)
    requires WellFormed(ns) && SameShape(ns, ms)
    ensures WellFormed(ms)
  {
  }

  /** A tag object, whose parent comes before it in the arena. */
  predicate Closable(ns: seq<Node>, i: nat)
  {
    0 < i < |ns| && ns[i].kind.Element? && ns[i].parent < i
  }

  /** `obj.name = v`. */
  function SetField(ns: seq<Node>, p: nat, name: string, v: Value): (r: seq<Node>)
    requires p < |ns|
    ensures SameShape(ns, r)
    ensures r[p].fields == ns[p].fields[name := v]
    ensures forall j :: 0 <= j < |ns| && j != p ==> r[j] == ns[j]
  {
    ns[p := ns[p].(fields := ns[p].fields[name := v])]
  }

  /** `obj.name.append(v)`: an AttributeError when the object has no list
      of that name. */
  function AppendTo(ns: seq<Node>, p: nat, name: string, v: Value): (r: Result<seq<Node>, BuildError>)
    requires p < |ns|
    ensures r.Success? <==> name in ns[p].fields && ns[p].fields[name].List?
    ensures r.Success? ==> SameShape(ns, r.value)
    ensures r.Success? ==> r.value[p].fields == ns[p].fields[name := List(ns[p].fields[name].items + [v])]
    ensures r.Success? ==> forall j :: 0 <= j < |ns| && j != p ==> r.value[j] == ns[j]
    ensures r.Failure? ==> r.error == AttributeError
  {
    if name in ns[p].fields && ns[p].fields[name].List? then
      Success(SetField(ns, p, name, List(ns[p].fields[name].items + [v])))
    else Failure(AttributeError)
  }

  /** `[int(i) for i in attrs.get(key).split()]`: an AttributeError when the
      attribute is absent (`None` has no `split`), a ValueError when a word
      is not an integer. */
  function IntsAttr(attrs: map<string, string>, key: string): (r: Result<seq<int>, BuildError>)
    ensures r.Success? <==> key in attrs && IntsOf(attrs[key]).Some?
    ensures r.Success? ==> r.value == IntsOf(attrs[key]).value
    ensures r.Failure? ==> r.error == (if key in attrs then ValueError else AttributeError)
  {
    if key !in attrs then Failure(AttributeError)
    else
      match IntsOf(attrs[key])
      case None => Failure(ValueError)
      case Some(xs) => Success(xs)
  }

  /** What `Directory.__init__` sets. */
  const DirectoryDefaults: map<string, Value> :=
    map["path" := Text(""), "se" := Flag(false), "tauval" := Number(0.0),
        "label" := Flag(false), "complex" := Flag(false),
        "normalization" := Number(1.0), "fn_contains" := Text("")]

  function ExtrapolateFields(orders: seq<int>, L: Value): map<string, Value>
  {
    map["orders" := Ints(orders), "L" := L, "plots" := List([]), "function" := Text("extrapolate")]
  }

  /** `Show.__init__`. */
  function CreateShow(attrs: map<string, string>): (r: Result<map<string, Value>, BuildError>)
  {
    var orders :- IntsAttr(attrs, "orders");
    Success(map["orders" := Ints(orders), "function" := Text("show"),
                "kwargs" := Dict(map["orders" := Ints(orders)])])
  }

  /** `Extrapolate.__init__`: `L` is read only when the attribute is
      present and not empty. */
  function CreateExtrapolate(attrs: map<string, string>): (r: Result<map<string, Value>, BuildError>)
  {
    var orders :- IntsAttr(attrs, "orders");
    if "L" in attrs && attrs["L"] != "" then
      var ls :- IntsAttr(attrs, "L");
      Success(ExtrapolateFields(orders, Ints(ls)))
    else
      Success(ExtrapolateFields(orders, Nothing))
  }

  /** `Plot.__init__`. */
  function CreatePlot(attrs: map<string, string>): (r: Result<map<string, Value>, BuildError>)
  {
    var ls :- IntsAttr(attrs, "L");
    var orders :- IntsAttr(attrs, "orders");
    var known := if "known" in attrs && attrs["known"] != "" then Split(attrs["known"]) else [];
    Success(PlotFields(ls, orders, if "pdfname" in attrs then Text(attrs["pdfname"]) else Nothing,
                       known, if "ylabel" in attrs then attrs["ylabel"] else ""))
  }

  /** The attributes of a new plot object: empty `data`, `cl`, `fit` and
      `labels`, the given sizes `L`, `orders`, `pdfname` and `ylabel`, and
      the `known` words each read as a float. */
  function PlotFields(ls: seq<int>, orders: seq<int>, pdfname: Value, known: seq<string>, ylabel: string): (m: map<string, Value>)
    ensures m.Keys == {"data", "cl", "fit", "labels", "L", "orders", "pdfname", "known", "ylabel"}
    ensures m["data"] == m["cl"] == m["fit"] == m["labels"] == List([])
    ensures m["L"] == Ints(ls) && m["orders"] == Ints(orders) && m["pdfname"] == pdfname
    ensures m["ylabel"] == Text(ylabel) && m["known"].List? && |m["known"].items| == |known|
    ensures forall k :: 0 <= k < |known| ==> m["known"].items[k] == FloatText(known[k])
  {
    map["data" := List([]), "cl" := List([]), "fit" := List([]), "labels" := List([]),
        "L" := Ints(ls), "orders" := Ints(orders), "pdfname" := pdfname,
        "known" := List(seq(|known|, k requires 0 <= k < |known| => FloatText(known[k]))),
        "ylabel" := Text(ylabel)]
  }

  /** `Therm.__init__`: the `range` attribute must list exactly three
      integers. */
  function CreateTherm(attrs: map<string, string>): (r: Result<map<string, Value>, BuildError>)
  {
    var orders :- IntsAttr(attrs, "orders");
    var bounds :- IntsAttr(attrs, "range");
    if |bounds| != 3 then Failure(ValueError)
    else
      Success(map["orders" := Ints(orders), "start" := Int(bounds[0]), "end" := Int(bounds[1]),
                  "step" := Int(bounds[2]), "function" := Text("therm")])
  }

  /** The attributes the class's `__init__` gives a new object, from the
      attributes of its opening tag, or the error it raises. Classes without
      an `__init__` start with none. */
  function Created(t: Tag, attrs: map<string, string>): (r: Result<map<string, Value>, BuildError>)
  {
    match t
    case Analysis => Success(map["directories" := List([]), "actions" := List([])])
    case Directory => Success(DirectoryDefaults)
    case Actions => Success(map["actions" := List([])])
    case Show => CreateShow(attrs)
    case Extrapolate => CreateExtrapolate(attrs)
    case Plot => CreatePlot(attrs)
    case Therm => CreateTherm(attrs)
    case _ => Success(map[])
  }

  /** `obj.name = int(text.strip())`: a ValueError when the text is not an
      integer. */
  function SetInt(ns: seq<Node>, p: nat, name: string, text: string): (r: Result<seq<Node>, BuildError>)
    requires p < |ns|
    ensures r.Success? ==> SameShape(ns, r.value)
    ensures r.Success? ==> forall j :: 0 <= j < |ns| && j != p ==> r.value[j] == ns[j]
  {
    match ParseInt(Strip(text))
    case None => Failure(ValueError)
    case Some(k) => Success(SetField(ns, p, name, Int(k)))
  }

  /** `Directory.finalize`: an unset label becomes the path, then the
      parent's `add_directory`, which only an analysis has. */
  function CloseDirectory(ns: seq<Node>, i: nat): (r: Result<seq<Node>, BuildError>)
    requires Closable(ns, i)
    ensures r.Success? ==> SameShape(ns, r.value)
    ensures r.Success? ==> forall j :: 0 <= j < |ns| && j != i && j != ns[i].parent ==> r.value[j] == ns[j]
  {
    var n := ns[i];
    var p := n.parent;
    if "label" !in n.fields then Failure(AttributeError)
    else if Falsy(n.fields["label"]) && "path" !in n.fields then Failure(AttributeError)
    else
      var labelled := if Falsy(n.fields["label"]) then SetField(ns, i, "label", n.fields["path"]) else ns;
      if ns[p].kind != Element(Analysis) then Failure(AttributeError)
      else AppendTo(labelled, p, "directories", Ref(i))
  }

  /** `Extrapolate.finalize`: the keyword arguments of the action, then the
      object joins its parent's actions. */
  function CloseExtrapolate(ns: seq<Node>, i: nat): (r: Result<seq<Node>, BuildError>)
    requires Closable(ns, i)
    ensures r.Success? ==> SameShape(ns, r.value)
    ensures r.Success? ==> forall j :: 0 <= j < |ns| && j != i && j != ns[i].parent ==> r.value[j] == ns[j]
  {
    var f := ns[i].fields;
    if "orders" in f && "L" in f && "plots" in f then
      var kwargs := Dict(map["orders" := f["orders"], "L_sizes" := f["L"], "mk_plots" := f["plots"]]);
      AppendTo(SetField(ns, i, "kwargs", kwargs), ns[i].parent, "actions", Ref(i))
    else Failure(AttributeError)
  }

  /** `Therm.finalize`: the keyword arguments, with the cut-offs
      `range(start, end, step)`, then the object joins its parent's
      actions. */
  function CloseTherm(ns: seq<Node>, i: nat): (r: Result<seq<Node>, BuildError>)
    requires Closable(ns, i)
    ensures r.Success? ==> SameShape(ns, r.value)
    ensures r.Success? ==> forall j :: 0 <= j < |ns| && j != i && j != ns[i].parent ==> r.value[j] == ns[j]
  {
    var f := ns[i].fields;
    if "orders" in f && "start" in f && "end" in f && "step" in f then
      match (f["start"], f["end"], f["step"])
      case (Int(start), Int(end), Int(step)) =>
        if step == 0 then Failure(ValueError)
        else
          var kwargs := Dict(map["orders" := f["orders"], "cutoffs" := Ints(Range(start, end, step))]);
          AppendTo(SetField(ns, i, "kwargs", kwargs), ns[i].parent, "actions", Ref(i))
      case _ => Failure(TypeError)
    else Failure(AttributeError)
  }

  /** The attribute of its parent that closing a tag object writes or
      appends to. */
  function Writes(t: Tag): string
  {
    match t
    case Analysis => "run"
    case MaxOrder => "order"
    case Directory => "directories"
    case Label => "label"
    case Path => "path"
    case Tauval => "tauval"
    case Lval => "L"
    case SwapEndian => "se"
    case Complex => "complex"
    case Ntherm => "ntherm"
    case Normalization => "normalization"
    case Filenamecontains => "fn_contains"
    case Actions => "actions"
    case Show => "actions"
    case Extrapolate => "actions"
    case Plot => "plots"
    case Therm => "actions"
  }

  /** The tag object at `i` is closed: its `finalize` writes what it has
      gathered into its parent (or into itself), or raises. It only ever
      writes attributes, and only those of the object and of its parent. */
  function Finalized(ns: seq<Node>, i: nat): (r: Result<seq<Node>, BuildError>)
    requires Closable(ns, i)
    ensures r.Success? ==> SameShape(ns, r.value)
    ensures r.Success? ==> forall j :: 0 <= j < |ns| && j != i && j != ns[i].parent ==> r.value[j] == ns[j]
  {
    var n := ns[i];
    var p := n.parent;
    match n.kind.tag
    case Analysis => Success(SetField(ns, p, Writes(Analysis), Ref(i)))
    case MaxOrder | Lval | Ntherm => SetInt(ns, p, Writes(n.kind.tag), n.buffer)
    case Label | Path | Filenamecontains => Success(SetField(ns, p, Writes(n.kind.tag), Text(Strip(n.buffer))))
    case Tauval | Normalization => Success(SetField(ns, p, Writes(n.kind.tag), FloatText(Strip(n.buffer))))
    case SwapEndian | Complex => Success(SetField(ns, p, Writes(n.kind.tag), Flag(true)))
    case Directory => CloseDirectory(ns, i)
    case Actions =>
      if "actions" in n.fields then Success(SetField(ns, p, Writes(Actions), n.fields["actions"]))
      else Failure(AttributeError)
    case Show | Plot => AppendTo(ns, p, Writes(n.kind.tag), Ref(i))
    case Extrapolate => CloseExtrapolate(ns, i)
    case Therm => CloseTherm(ns, i)
  }

  /** What an event handler did: returned, or raised an error. */
  datatype Outcome = Ok | Raised(error: BuildError)

  /** The handler object with the attributes `Root.__init__` gives it. */
  function HandlerNode(xmlFilename: string): Node
  {
    Node(Handler, 0, [], "", map["project" := Nothing, "xml_filename" := Text(xmlFilename)])
  }

  /** How many objects lie above `i`: 0 for the handler. */
  function Depth(ns: seq<Node>, i: nat): (d: nat)
    requires WellFormed(ns) && i < |ns|
    ensures d == 0 <==> i == 0
    decreases i
  {
    if i == 0 then 0 else 1 + Depth(ns, ns[i].parent)
  }

  /** `ms` keeps the objects of `ns` with their parents and may add more. */
  predicate Extends(ns: seq<Node>, ms: seq<Node>)
  {
    |ns| <= |ms| && forall j :: 0 < j < |ns| ==> ms[j].parent == ns[j].parent
  }

  /** Depth only depends on the parent links. */
  lemma {:induction false} DepthKept(ns: seq<Node>, ms: seq<Node>, i: nat)
    requires WellFormed(ns) && WellFormed(ms) && Extends(ns, ms) && i < |ns|
    ensures Depth(ms, i) == Depth(ns, i)
    decreases i
  {
    if i > 0 {
      DepthKept(ns, ms, ns[i].parent);
    }
  }

  /** The arena after `node` is created under `p`: it is appended to the
      arena and to `p`'s children. */
  function Opened(ns: seq<Node>, p: nat, node: Node): (ms: seq<Node>)
    requires p < |ns|
  {
    ns[p := ns[p].(children := ns[p].children + [|ns|])] + [node]
  }

  /** Creating a tag object under an existing object keeps the arena a tree
      and every existing parent link. */
  lemma {:induction false} OpenedWellFormed(ns: seq<Node>, p: nat, node: Node)
    requires WellFormed(ns) && p < |ns| && node.kind.Element? && node.parent == p && node.children == []
    ensures WellFormed(Opened(ns, p, node)) && Extends(ns, Opened(ns, p, node))
    ensures |Opened(ns, p, node)| == |ns| + 1 && Opened(ns, p, node)[|ns|] == node
  {
    var ms := Opened(ns, p, node);
    forall i, k | 0 <= i < |ms| && 0 <= k < |ms[i].children|
      ensures i < ms[i].children[k] < |ms| && ms[ms[i].children[k]].parent == i
    {
      if i == p && k == |ns[p].children| {
        assert ms[i].children[k] == |ns|;
      } else {
        assert ms[i].children[k] == ns[i].children[k];
      }
    }
  }

  /** The content handler: the tree built so far and the object whose tags
      are open innermost. */
  class Root {
    var nodes: seq<Node>
    var current: nat

    predicate Valid()
      reads this
    {
      WellFormed(nodes) && current < |nodes|
    }

    /** `Root.__init__`: the handler alone, and current. */
    constructor (xmlFilename: string)
      ensures Valid()
      ensures nodes == [HandlerNode(xmlFilename)] && current == 0
    {
      nodes := [HandlerNode(xmlFilename)];
      current := 0;
    }

    /** `startElement`: create an object of the class the tag names with the
        attributes of the tag, under the current object; it is appended as
        the current object's last child and becomes current. An undefined
        tag and an error of the class's `__init__` leave the tree as it
        was. */
    method StartElement(name: string, attrs: map<string, string>) returns (r: Outcome)
      requires Valid()
      modifies this
      ensures Valid() && Extends(old(nodes), nodes)
      ensures TagOf(name).None? ==>
        r == Raised(UndefinedTag(Capitalize(Lower(name)))) && nodes == old(nodes) && current == old(current)
      ensures TagOf(name).Some? && Created(TagOf(name).value, attrs).Failure? ==>
        r == Raised(Created(TagOf(name).value, attrs).error) && nodes == old(nodes) && current == old(current)
      ensures TagOf(name).Some? && Created(TagOf(name).value, attrs).Success? ==>
        && r == Ok
        && current == |old(nodes)|
        && nodes == Opened(old(nodes), old(current), Node(Element(TagOf(name).value), old(current), [], "", Created(TagOf(name).value, attrs).value))
    {
      match TagOf(name) {
        case None =>
          r := Raised(UndefinedTag(Capitalize(Lower(name))));
        case Some(t) =>
          match Created(t, attrs) {
            case Failure(e) =>
              r := Raised(e);
            case Success(fields) =>
              var k := |nodes|;
              OpenedWellFormed(nodes, current, Node(Element(t), current, [], "", fields));
              nodes := Opened(nodes, current, Node(Element(t), current, [], "", fields));
              current := k;
              r := Ok;
          }
      }
    }

    /** `characters`: the text is appended to the current object's buffer.
        Outside every element the handler passes the text on to itself
        until Python gives up with a RuntimeError (maximum recursion
        depth). */
    method Characters(data: string) returns (r: Outcome)
      requires Valid()
      modifies this
      ensures Valid() && Extends(old(nodes), nodes) && current == old(current)
      ensures current == 0 ==> r == Raised(RuntimeError) && nodes == old(nodes)
      ensures current != 0 ==>
        r == Ok && nodes == old(nodes)[current := old(nodes)[current].(buffer := old(nodes)[current].buffer + data)]
    {
      if current == 0 {
        r := Raised(RuntimeError);
      } else {
        nodes := nodes[current := nodes[current].(buffer := nodes[current].buffer + data)];
        r := Ok;
      }
    }

    /** `endElement`: the current object is finalized and its parent becomes
        current; the closing tag's name plays no part. The handler itself
        has no `finalize`. */
    method EndElement(name: string) returns (r: Outcome)
      requires Valid()
      modifies this
      ensures Valid() && Extends(old(nodes), nodes)
      ensures old(current) == 0 ==> r == Raised(AttributeError) && nodes == old(nodes) && current == 0
      ensures old(current) != 0 && Finalized(old(nodes), old(current)).Failure? ==>
        r == Raised(Finalized(old(nodes), old(current)).error) && nodes == old(nodes) && current == old(current)
      ensures old(current) != 0 && Finalized(old(nodes), old(current)).Success? ==>
        r == Ok && nodes == Finalized(old(nodes), old(current)).value && current == old(nodes)[old(current)].parent
    {
      if current == 0 {
        r := Raised(AttributeError);
      } else {
        match Finalized(nodes, current) {
          case Failure(e) =>
            r := Raised(e);
          case Success(ns) =>
            SameShapeWellFormed(nodes, ns);
            current := nodes[current].parent;
            nodes := ns;
            r := Ok;
        }
      }
    }

    /** One event passed to its handler method: the handler's state
        becomes what `Applied` says, or the method raises what `Applied`
        says and the state stays as it was. */
    method Handle(e: Event) returns (r: Outcome)
      requires Valid()
      modifies this
      ensures Valid() && Extends(old(nodes), nodes)
      ensures r == Ok <==> Applied(State(old(nodes), old(current)), e).Success?
      ensures r == Ok ==> State(nodes, current) == Applied(State(old(nodes), old(current)), e).value
      ensures r.Raised? ==>
        Applied(State(old(nodes), old(current)), e) == Failure(r.error)
        && nodes == old(nodes) && current == old(current)
      ensures r == Ok ==> Depth(nodes, current) == old(Depth(nodes, current)) + Step(e)
    {
      ghost var s := State(nodes, current);
      match e {
        case Start(name, attrs) =>
          r := StartElement(name, attrs);
        case Chars(data) =>
          r := Characters(data);
        case End(name) =>
          r := EndElement(name);
      }
      if r == Ok {
        AppliedDepth(s, e);
      }
    }

    /** The events of a document, handled in order until one raises. When
        all are handled, the current object lies as many levels deeper as
        there were more opening than closing tags. The outcome and, when
        no event raised, the new state are those `Fed` gives. */
    method Feed(events: seq<Event>) returns (r: Outcome)
      requires Valid()
      modifies this
      ensures Valid() && Extends(old(nodes), nodes)
      ensures r == Ok <==> Fed(State(old(nodes), old(current)), events).Success?
      ensures r == Ok ==> State(nodes, current) == Fed(State(old(nodes), old(current)), events).value
      ensures r.Raised? ==> Fed(State(old(nodes), old(current)), events) == Failure(r.error)
      ensures r == Ok ==> Depth(nodes, current) == old(Depth(nodes, current)) + Level(events)
      ensures r == Ok && old(current) == 0 && Level(events) == 0 ==> current == 0
    {
      ghost var start := nodes;
      ghost var s0 := State(nodes, current);
      r := Ok;
      var i := 0;
      while i < |events| && r == Ok
        invariant 0 <= i <= |events|
        invariant Valid() && Extends(start, nodes)
        invariant r == Ok ==> Fed(s0, events[..i]) == Success(State(nodes, current))
        invariant r.Raised? ==> Fed(s0, events[..i]) == Failure(r.error)
      {
        r := Handle(events[i]);
        assert events[..i + 1][..i] == events[..i];
        i := i + 1;
      }
      if r == Ok {
        assert events[..i] == events;
        FedDepth(s0, events);
      } else {
        FailureKept(s0, events, i);
      }
    }
  }

  /** A SAX event: an opening tag with its attributes, text, or a closing
      tag. */
  datatype Event = Start(name: string, attrs: map<string, string>) | Chars(data: string) | End(name: string)

  /** How many more opening than closing tags the events hold. */
  function Level(events: seq<Event>): int
  {
    if events == [] then 0
    else
      Level(events[..|events| - 1]) + Step(events[|events| - 1])
  }

  function Step(e: Event): int
  {
    if e.Start? then 1 else if e.End? then -1 else 0
  }

  /** The handler's state: the tree built so far and the current object. */
  datatype State = State(nodes: seq<Node>, current: nat)

  predicate ValidState(s: State)
  {
    WellFormed(s.nodes) && s.current < |s.nodes|
  }

  /** A fresh handler's state. */
  function Initial(xmlFilename: string): (s: State)
    ensures ValidState(s) && s.nodes[0] == HandlerNode(xmlFilename)
  {
    State([HandlerNode(xmlFilename)], 0)
  }

  /** What handling one event makes of the state, or the error the handler
      method raises. */
  function Applied(s: State, e: Event): (r: Result<State, BuildError>)
    requires ValidState(s)
    ensures r.Success? ==> ValidState(r.value) && Extends(s.nodes, r.value.nodes)
  {
    match e
    case Start(name, attrs) =>
      (match TagOf(name)
       case None => Failure(UndefinedTag(Capitalize(Lower(name))))
       case Some(t) =>
         var fields :- Created(t, attrs);
         var node := Node(Element(t), s.current, [], "", fields);
         OpenedWellFormed(s.nodes, s.current, node);
         Success(State(Opened(s.nodes, s.current, node), |s.nodes|)))
    case Chars(data) =>
      if s.current == 0 then Failure(RuntimeError)
      else
        var n := s.nodes[s.current];
        Success(State(s.nodes[s.current := n.(buffer := n.buffer + data)], s.current))
    case End(_) =>
      if s.current == 0 then Failure(AttributeError)
      else
        var ns :- Finalized(s.nodes, s.current);
        SameShapeWellFormed(s.nodes, ns);
        Success(State(ns, s.nodes[s.current].parent))
  }

  /** What handling the events in order makes of the state, or the error of
      the first event whose handler raises. */
  function Fed(s: State, events: seq<Event>): (r: Result<State, BuildError>)
    requires ValidState(s)
    ensures r.Success? ==> ValidState(r.value)
    decreases |events|
  {
    if events == [] then Success(s)
    else
      var m :- Fed(s, events[..|events| - 1]);
      Applied(m, events[|events| - 1])
  }

  /** A handled opening tag moves one level down, a closing tag one level
      up, and text stays where it is. */
  lemma {:induction false} AppliedDepth(s: State, e: Event)
    requires ValidState(s) && Applied(s, e).Success?
    ensures var t := Applied(s, e).value;
            Depth(t.nodes, t.current) == Depth(s.nodes, s.current) + Step(e)
  {
    var t := Applied(s, e).value;
    match e
    case Start(_, _) =>
      DepthKept(s.nodes, t.nodes, s.current);
    case Chars(_) =>
      DepthKept(s.nodes, t.nodes, s.current);
    case End(_) =>
      DepthKept(s.nodes, t.nodes, t.current);
  }

  /** When every event is handled, the current object lies as many levels
      deeper as there were more opening than closing tags. */
  lemma {:induction false} FedDepth(s: State, events: seq<Event>)
    requires ValidState(s) && Fed(s, events).Success?
    ensures var t := Fed(s, events).value;
            Depth(t.nodes, t.current) == Depth(s.nodes, s.current) + Level(events)
    decreases |events|
  {
    if events != [] {
      var init := events[..|events| - 1];
      FedDepth(s, init);
      AppliedDepth(Fed(s, init).value, events[|events| - 1]);
    }
  }

  /** Once an event has raised, the later events are never handled. */
  lemma {:induction false} FailureKept(s: State, events: seq<Event>, i: nat)
    requires ValidState(s) && i <= |events| && Fed(s, events[..i]).Failure?
    ensures Fed(s, events) == Fed(s, events[..i])
    decreases |events| - i
  {
    if i < |events| {
      assert events[..i + 1][..i] == events[..i];
      FailureKept(s, events, i + 1);
    } else {
      assert events[..i] == events;
    }
  }

  /** `parse_file`: feed the document's events to a fresh handler and
      return the object stored as its `run` attribute (which closing an
      `<analysis>` sets); the error of the first event that raises, or an
      AttributeError when there is no `run`. `o` is what feeding the events
      gave. */
  method ParseFile(xmlFilename: string, events: seq<Event>) returns (handler: Root, o: Outcome, r: Result<Value, BuildError>)
    ensures fresh(handler) && handler.Valid()
    ensures o == Ok <==> Fed(Initial(xmlFilename), events).Success?
    ensures o == Ok ==> State(handler.nodes, handler.current) == Fed(Initial(xmlFilename), events).value
    ensures o.Raised? ==> Fed(Initial(xmlFilename), events) == Failure(o.error) && r == Failure(o.error)
    ensures o == Ok ==> (r.Success? <==> "run" in handler.nodes[0].fields)
    ensures r.Success? ==> "run" in handler.nodes[0].fields && r.value == handler.nodes[0].fields["run"]
    ensures o == Ok && "run" !in handler.nodes[0].fields ==> r == Failure(AttributeError)
  {
    handler := new Root(xmlFilename);
    o := handler.Feed(events);
    if o.Raised? {
      r := Failure(o.error);
    } else if "run" in handler.nodes[0].fields {
      r := Success(handler.nodes[0].fields["run"]);
    } else {
      r := Failure(AttributeError);
    }
  }

  /** Closing `<label>`, `<path>` or `<filenamecontains>` stores the text
      between the tags, without the whitespace around it, as the parent's
      `label`, `path` or `fn_contains`; nothing else changes. */
  lemma {:induction false} TextLeaf(ns: seq<Node>, i: nat, pre: string, t: string, post: string)
    requires Closable(ns, i)
    requires ns[i].kind.tag in {Label, Path, Filenamecontains}
    requires ns[i].buffer == pre + t + post
    requires forall k :: 0 <= k < |pre| ==> IsSpace(pre[k])
    requires forall k :: 0 <= k < |post| ==> IsSpace(post[k])
    requires t != [] && !IsSpace(t[0]) && !IsSpace(t[|t| - 1])
    ensures Finalized(ns, i) == Success(SetField(ns, ns[i].parent, Writes(ns[i].kind.tag), Text(t)))
  {
    StripSurrounded(pre, t, post);
    TextLeafStripped(ns, i);
  }

  lemma {:induction false} TextLeafStripped(ns: seq<Node>, i: nat)
    requires Closable(ns, i)
    requires ns[i].kind.tag in {Label, Path, Filenamecontains}
    ensures Finalized(ns, i) == Success(SetField(ns, ns[i].parent, Writes(ns[i].kind.tag), Text(Strip(ns[i].buffer))))
  {
  }

  /** Closing `<lval>`, `<max_order>` or `<ntherm>` around an integer
      written in decimal (with any whitespace around it) stores that integer
      as the parent's `L`, `order` or `ntherm`; nothing else changes. */
  lemma {:induction false} IntLeaf(ns: seq<Node>, i: nat, pre: string, n: int, post: string)
    requires Closable(ns, i)
    requires ns[i].kind.tag in {Lval, MaxOrder, Ntherm}
    requires ns[i].buffer == pre + Decimal(n) + post
    requires forall k :: 0 <= k < |pre| ==> IsSpace(pre[k])
    requires forall k :: 0 <= k < |post| ==> IsSpace(post[k])
    ensures Finalized(ns, i) == Success(SetField(ns, ns[i].parent, Writes(ns[i].kind.tag), Int(n)))
  {
    DecimalUnspaced(n);
    StripSurrounded(pre, Decimal(n), post);
    ParseDecimal(n);
    IntLeafSet(ns, i);
    SetIntParsed(ns, ns[i].parent, Writes(ns[i].kind.tag), ns[i].buffer, n);
  }

  lemma {:induction false} IntLeafSet(ns: seq<Node>, i: nat)
    requires Closable(ns, i)
    requires ns[i].kind.tag in {Lval, MaxOrder, Ntherm}
    ensures Finalized(ns, i) == SetInt(ns, ns[i].parent, Writes(ns[i].kind.tag), ns[i].buffer)
  {
    match ns[i].kind.tag {
      case Lval =>
      case MaxOrder =>
      case Ntherm =>
    }
  }

  lemma {:induction false} SetIntParsed(ns: seq<Node>, p: nat, name: string, text: string, n: int)
    requires p < |ns|
    requires ParseInt(Strip(text)) == Some(n)
    ensures SetInt(ns, p, name, text) == Success(SetField(ns, p, name, Int(n)))
  {
  }

  /** Closing one of those integer tags around text that is not an integer
      raises ValueError. */
  lemma {:induction false} IntLeafRejects(ns: seq<Node>, i: nat)
    requires Closable(ns, i)
    requires ns[i].kind.tag in {Lval, MaxOrder, Ntherm}
    requires ParseInt(Strip(ns[i].buffer)).None?
    ensures Finalized(ns, i) == Failure(ValueError)
  {
    IntLeafSet(ns, i);
  }

  /** Closing `<swap_endian>` or `<complex>` sets the parent's flag to true
      whatever text the tags enclose. */
  lemma {:induction false} FlagLeaf(ns: seq<Node>, i: nat)
    requires Closable(ns, i)
    requires ns[i].kind.tag in {SwapEndian, Complex}
    ensures Finalized(ns, i) == Success(SetField(ns, ns[i].parent, Writes(ns[i].kind.tag), Flag(true)))
  {
  }

  /** A new `<directory>` does not swap bytes, holds real numbers, is not
      normalised and reads every file; its label is unset. */
  lemma {:induction false} NewDirectory(attrs: map<string, string>)
    ensures Created(Directory, attrs).Success?
    ensures var f := Created(Directory, attrs).value;
            && f["se"] == Flag(false) && f["complex"] == Flag(false)
            && f["normalization"] == Number(1.0) && f["fn_contains"] == Text("")
            && f["path"] == Text("") && f["tauval"] == Number(0.0) && Falsy(f["label"])
  {
  }

  /** Closing a `<directory>` inside an `<analysis>`: a label that was never
      set, or set empty, becomes the path, and the directory is appended to
      the analysis's directories after those closed before it. Anywhere
      else the parent has no `add_directory`. */
  lemma {:induction false} DirectoryClosed(ns: seq<Node>, i: nat)
    requires Closable(ns, i) && ns[i].kind == Element(Directory)
    requires "label" in ns[i].fields && "path" in ns[i].fields
    ensures var p := ns[i].parent;
            var r := Finalized(ns, i);
            && (ns[p].kind != Element(Analysis) ==> r == Failure(AttributeError))
            && (ns[p].kind == Element(Analysis) && "directories" in ns[p].fields && ns[p].fields["directories"].List? ==>
                  && r.Success?
                  && r.value[i].fields["label"] == (if Falsy(ns[i].fields["label"]) then ns[i].fields["path"] else ns[i].fields["label"])
                  && r.value[p].fields["directories"] == List(ns[p].fields["directories"].items + [Ref(i)]))
  {
  }

  /** Closing `<show>` appends the object to its parent's `actions` list,
      and closing `<plot>` to its parent's `plots`; a parent without such a
      list raises AttributeError. (`<extrapolate>` and `<therm>` also record
      their keyword arguments: see `ExtrapolateClosed` and
      `ThermCutoffs`.) */
  lemma {:induction false} ActionAppended(ns: seq<Node>, i: nat)
    requires Closable(ns, i)
    requires ns[i].kind.tag in {Show, Plot}
    ensures var p := ns[i].parent;
            var list := if ns[i].kind.tag == Show then "actions" else "plots";
            var r := Finalized(ns, i);
            && (r.Success? <==> list in ns[p].fields && ns[p].fields[list].List?)
            && (r.Success? ==> r.value == ns[p := ns[p].(fields := ns[p].fields[list := List(ns[p].fields[list].items + [Ref(i)])])])
  {
  }

  /** Closing `<actions>` hands its list of actions to its parent. */
  lemma {:induction false} ActionsHandedOver(ns: seq<Node>, i: nat)
    requires Closable(ns, i) && ns[i].kind == Element(Actions)
    requires "actions" in ns[i].fields
    ensures var p := ns[i].parent;
            Finalized(ns, i) == Success(ns[p := ns[p].(fields := ns[p].fields["actions" := ns[i].fields["actions"]])])
  {
  }

  /** The `orders` of `<show orders="...">` are the integers the attribute
      lists. */
  lemma {:induction false} ShowOrders(attrs: map<string, string>, xs: seq<int>)
    requires "orders" in attrs && attrs["orders"] == Spaced(xs)
    ensures Created(Show, attrs).Success?
    ensures Created(Show, attrs).value["orders"] == Ints(xs)
    ensures Created(Show, attrs).value["kwargs"] == Dict(map["orders" := Ints(xs)])
  {
    IntsOfSpaced(xs);
  }

  /** `<extrapolate>` without an `L` attribute (or with an empty one) has
      `L` None; with one, `L` holds the integers it lists. */
  lemma {:induction false} ExtrapolateSizes(attrs: map<string, string>, xs: seq<int>, ls: seq<int>)
    requires "orders" in attrs && attrs["orders"] == Spaced(xs)
    ensures "L" !in attrs || attrs["L"] == "" ==> Created(Extrapolate, attrs) == Success(ExtrapolateFields(xs, Nothing))
    ensures "L" in attrs && attrs["L"] == Spaced(ls) && ls != [] ==>
              Created(Extrapolate, attrs) == Success(ExtrapolateFields(xs, Ints(ls)))
  {
    IntsOfSpaced(xs);
    assert IntsAttr(attrs, "orders") == Success(xs);
    assert Created(Extrapolate, attrs) == CreateExtrapolate(attrs);
    if "L" in attrs && attrs["L"] == Spaced(ls) && ls != [] {
      IntsOfSpaced(ls);
      SplitSpacedCons(ls);
      assert attrs["L"] != "";
      assert IntsAttr(attrs, "L") == Success(ls);
    }
  }

  /** Closing `<therm range="start end step">` with a non-zero step records
      the cut-offs `range(start, end, step)`: `start + k * step` for every
      `k` that stays short of `end`, and appends the object to its parent's
      actions. */
  lemma {:induction false} ThermCutoffs(ns: seq<Node>, i: nat, start: int, end: int, step: int)
    requires Closable(ns, i) && ns[i].kind == Element(Therm)
    requires "orders" in ns[i].fields && "start" in ns[i].fields && "end" in ns[i].fields && "step" in ns[i].fields
    requires ns[i].fields["start"] == Int(start) && ns[i].fields["end"] == Int(end) && ns[i].fields["step"] == Int(step)
    requires step != 0
    requires var p := ns[i].parent; "actions" in ns[p].fields && ns[p].fields["actions"].List?
    ensures Finalized(ns, i).Success?
    ensures var r := Finalized(ns, i).value;
            var cutoffs := r[i].fields["kwargs"].entries["cutoffs"].items;
            && (forall k :: 0 <= k < |cutoffs| ==> cutoffs[k] == Int(start + k * step))
            && (forall k :: 0 <= k < |cutoffs| ==> if step > 0 then start + k * step < end else start + k * step > end)
            && (if step > 0 then start + |cutoffs| * step >= end else start + |cutoffs| * step <= end)
            && r[ns[i].parent].fields["actions"] == List(ns[ns[i].parent].fields["actions"].items + [Ref(i)])
  {
    var p := ns[i].parent;
    var kwargs := Dict(map["orders" := ns[i].fields["orders"], "cutoffs" := Ints(Range(start, end, step))]);
    var ms := SetField(ns, i, "kwargs", kwargs);
    assert Finalized(ns, i) == CloseTherm(ns, i) == AppendTo(ms, p, "actions", Ref(i));
    assert ms[p] == ns[p];
    var r := AppendTo(ms, p, "actions", Ref(i)).value;
    assert r[i] == ms[i];
    var range := Range(start, end, step);
    RangeEntries(start, end, step);
    var cutoffs := r[i].fields["kwargs"].entries["cutoffs"].items;
    assert cutoffs == Ints(range).items;
    assert |cutoffs| == |range|;
    forall k | 0 <= k < |cutoffs|
      ensures cutoffs[k] == Int(start + k * step)
      ensures if step > 0 then start + k * step < end else start + k * step > end
    {
      assert cutoffs[k] == Int(range[k]) && range[k] == start + k * step;
    }
  }

  /** Closing `<extrapolate>` records the keyword arguments `orders`,
      `L_sizes` and `mk_plots` from the object's `orders`, `L` and `plots`,
      then appends the object to its parent's `actions`; nothing else
      changes. Without those attributes, or without a parent list, it
      raises AttributeError. */
  lemma {:induction false} ExtrapolateClosed(ns: seq<Node>, i: nat)
    requires Closable(ns, i) && ns[i].kind == Element(Extrapolate)
    ensures var p := ns[i].parent;
            var f := ns[i].fields;
            var r := Finalized(ns, i);
            && (r.Success? <==>
                  "orders" in f && "L" in f && "plots" in f
                  && "actions" in ns[p].fields && ns[p].fields["actions"].List?)
            && (r.Failure? ==> r.error == AttributeError)
            && (r.Success? ==>
                  && r.value[i] == ns[i].(fields := f["kwargs" := Dict(map["orders" := f["orders"], "L_sizes" := f["L"], "mk_plots" := f["plots"]])])
                  && r.value[p] == ns[p].(fields := ns[p].fields["actions" := List(ns[p].fields["actions"].items + [Ref(i)])])
                  && forall j :: 0 <= j < |ns| && j != i && j != p ==> r.value[j] == ns[j])
  {
    var p := ns[i].parent;
    var f := ns[i].fields;
    assert Finalized(ns, i) == CloseExtrapolate(ns, i);
    if "orders" in f && "L" in f && "plots" in f {
      var ms := SetField(ns, i, "kwargs", Dict(map["orders" := f["orders"], "L_sizes" := f["L"], "mk_plots" := f["plots"]]));
      assert ms[p] == ns[p];
      assert CloseExtrapolate(ns, i) == AppendTo(ms, p, "actions", Ref(i));
    }
  }

  /** `Therm.__init__` succeeds exactly when `orders` lists integers and
      `range` lists exactly three of them, which become `start`, `end` and
      `step`. A missing attribute raises AttributeError, a word that is not
      an integer or a `range` of another length ValueError; `orders` is
      read first. */
  lemma {:induction false} ThermCreated(attrs: map<string, string>)
    ensures var r := CreateTherm(attrs);
            && (r.Success? <==>
                  "orders" in attrs && IntsOf(attrs["orders"]).Some?
                  && "range" in attrs && IntsOf(attrs["range"]).Some? && |IntsOf(attrs["range"]).value| == 3)
            && ("orders" !in attrs ==> r == Failure(AttributeError))
            && ("orders" in attrs && IntsOf(attrs["orders"]).None? ==> r == Failure(ValueError))
            && ("orders" in attrs && IntsOf(attrs["orders"]).Some? && "range" !in attrs ==> r == Failure(AttributeError))
            && (("orders" in attrs && IntsOf(attrs["orders"]).Some? && "range" in attrs
                 && (IntsOf(attrs["range"]).None? || |IntsOf(attrs["range"]).value| != 3)) ==> r == Failure(ValueError))
            && (r.Success? ==>
                  var b := IntsOf(attrs["range"]).value;
                  r.value == map["orders" := Ints(IntsOf(attrs["orders"]).value), "start" := Int(b[0]),
                                 "end" := Int(b[1]), "step" := Int(b[2]), "function" := Text("therm")])
  {
    if "orders" in attrs && IntsOf(attrs["orders"]).Some? {
      assert IntsAttr(attrs, "orders") == Success(IntsOf(attrs["orders"]).value);
    }
  }

  /** `Plot.__init__` succeeds exactly when `L` and `orders` both list
      integers (`L` is read first, and a missing attribute raises
      AttributeError, a word that is not an integer ValueError); the
      attributes it then sets are those `PlotFields` describes, from the
      `pdfname` given or None, the words of a non-empty `known` and the
      `ylabel` given or "". */
  lemma {:induction false} PlotCreated(attrs: map<string, string>)
    ensures var r := CreatePlot(attrs);
            && (r.Success? <==>
                  "L" in attrs && IntsOf(attrs["L"]).Some? && "orders" in attrs && IntsOf(attrs["orders"]).Some?)
            && ("L" !in attrs ==> r == Failure(AttributeError))
            && ("L" in attrs && IntsOf(attrs["L"]).None? ==> r == Failure(ValueError))
            && (("L" in attrs && IntsOf(attrs["L"]).Some? && "orders" !in attrs) ==> r == Failure(AttributeError))
            && (("L" in attrs && IntsOf(attrs["L"]).Some? && "orders" in attrs && IntsOf(attrs["orders"]).None?)
                 ==> r == Failure(ValueError))
            && (r.Success? ==>
                  r.value == PlotFields(IntsOf(attrs["L"]).value, IntsOf(attrs["orders"]).value,
                                        if "pdfname" in attrs then Text(attrs["pdfname"]) else Nothing,
                                        if "known" in attrs && attrs["known"] != "" then Split(attrs["known"]) else [],
                                        if "ylabel" in attrs then attrs["ylabel"] else ""))
  {
    var r := CreatePlot(attrs);
    if "L" !in attrs || IntsOf(attrs["L"]).None? {
      assert r == Failure(IntsAttr(attrs, "L").error);
    } else {
      var ls := IntsOf(attrs["L"]).value;
      assert IntsAttr(attrs, "L") == Success(ls);
      if "orders" !in attrs || IntsOf(attrs["orders"]).None? {
        assert r == Failure(IntsAttr(attrs, "orders").error);
      } else {
        assert IntsAttr(attrs, "orders") == Success(IntsOf(attrs["orders"]).value);
      }
    }
  }

  /** Closing `<analysis>` stores the object as its parent's `run`; nothing
      else changes. When the parent is the handler, the handler becomes
      current again and holds the `run` that `parse_file` returns. */
  lemma {:induction false} AnalysisClosed(s: State, name: string)
    requires ValidState(s) && s.current != 0 && s.nodes[s.current].kind == Element(Analysis)
    ensures var i := s.current;
            var p := s.nodes[i].parent;
            && Finalized(s.nodes, i) == Success(s.nodes[p := s.nodes[p].(fields := s.nodes[p].fields["run" := Ref(i)])])
            && Applied(s, End(name)).Success?
            && Applied(s, End(name)).value.current == p
            && (p == 0 ==> Applied(s, End(name)).value.nodes[0].fields["run"] == Ref(i))
  {
  }

  /** A `<therm>` whose step is zero raises ValueError when closed. */
  lemma {:induction false} ThermZeroStep(ns: seq<Node>, i: nat)
    requires Closable(ns, i) && ns[i].kind == Element(Therm)
    requires "orders" in ns[i].fields && "start" in ns[i].fields && "end" in ns[i].fields
    requires "step" in ns[i].fields
    requires ns[i].fields["start"].Int? && ns[i].fields["end"].Int?
    requires ns[i].fields["step"] == Int(0)
    ensures Finalized(ns, i) == Failure(ValueError)
  {
    assert Finalized(ns, i) == CloseTherm(ns, i);
  }
}
