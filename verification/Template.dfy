/** Message templates (Render in internal/workflow/engine.go).
    Render replaces one variable after another, in Go's unspecified map order. */
module Template {
  import opened Wrappers
  import opened Strings

  // ----- Render -----

  datatype RenderError = Missing(placeholder: string) | Malformed

  function Tag(name: string): string { "{{" + name + "}}" }

  /** Key and value pairs in the order in which `range` visits the map. */
  type Bindings = seq<(string, string)>

  /** The pairs list every entry of the map exactly once. */
  ghost predicate Ranges(bs: Bindings, variables: map<string, string>) {
    if bs == [] then variables == map[]
    else
      && bs[0].0 in variables
      && variables[bs[0].0] == bs[0].1
      && Ranges(bs[1..], variables - {bs[0].0})
  }

  function Substitute(body: string, bs: Bindings): string
    decreases |bs|
  {
    if bs == [] then body else Substitute(ReplaceAll(body, Tag(bs[0].0), bs[0].1), bs[1..])
  }

  function Check(body: string): Result<string, RenderError> {
    match Index(body, "{{")
    case None => Ok(body)
    case Some(start) =>
      match Index(body[start..], "}}")
      case None => Err(Malformed)
      case Some(end) => Err(Missing(body[start..][..end + 2]))
  }

  function RenderIn(template: string, bs: Bindings): Result<string, RenderError> {
    Check(Substitute(template, bs))
  }

  method Render(template: string, variables: map<string, string>) returns (r: Result<string, RenderError>)
    ensures exists bs :: Ranges(bs, variables) && r == RenderIn(template, bs)
  {
    var body := template;
    var remaining := variables;
    assert Reached(template, variables, body, remaining);
    while remaining != map[]
      invariant Reached(template, variables, body, remaining)
      decreases remaining.Keys
    {
      var key :| key in remaining;
      ReachedStep(template, variables, body, remaining, key);
      body := ReplaceAll(body, Tag(key), remaining[key]);
      remaining := remaining - {key};
    }
    r := Check(body);
    assert Ranges([], remaining) && RenderIn(body, []) == r;
  }

  /** Every way to finish from here is a way to render the whole template. */
  ghost predicate Reached(
    template: string, variables: map<string, string>, body: string, remaining: map<string, string>)
  {
    forall bs :: Ranges(bs, remaining) ==>
      exists all :: Ranges(all, variables) && RenderIn(template, all) == RenderIn(body, bs)
  }

  lemma ReachedStep(
    template: string, variables: map<string, string>, body: string, remaining: map<string, string>, key: string)
    requires Reached(template, variables, body, remaining) && key in remaining
    ensures Reached(template, variables, ReplaceAll(body, Tag(key), remaining[key]), remaining - {key})
  {
    var next := ReplaceAll(body, Tag(key), remaining[key]);
    forall bs | Ranges(bs, remaining - {key})
      ensures exists all :: Ranges(all, variables) && RenderIn(template, all) == RenderIn(next, bs)
    {
      var longer := [(key, remaining[key])] + bs;
      assert longer[1..] == bs;
      assert Ranges(longer, remaining) && RenderIn(body, longer) == RenderIn(next, bs);
    }
  }

  // ----- What a template means: one simultaneous substitution -----

  datatype Piece = Literal(text: string) | Placeholder(name: string) {
    predicate Fits() { if Literal? then Inert(text) else BraceFree(name) }

    function Text(): string { if Literal? then text else Tag(name) }
  }

  predicate BraceFree(t: string) { '{' !in t && '}' !in t }

  /** No "{{" inside the text, and none can arise by what follows it. */
  predicate Inert(t: string) {
    forall i :: 0 <= i < |t| && t[i] == '{' ==> i + 1 < |t| && t[i + 1] != '{'
  }

  predicate WellFormed(ps: seq<Piece>) {
    forall i :: 0 <= i < |ps| ==> ps[i].Fits()
  }

  function Flatten(ps: seq<Piece>): string {
    if ps == [] then "" else ps[0].Text() + Flatten(ps[1..])
  }

  /** Every placeholder replaced at once; the first unbound one, if any, is reported. */
  function Simultaneous(ps: seq<Piece>, variables: map<string, string>): Result<string, RenderError> {
    if ps == [] then Ok("") else
      match ps[0]
      case Placeholder(n) =>
        if n !in variables then Err(Missing(Tag(n)))
        else Prefixed(variables[n], Simultaneous(ps[1..], variables))
      case Literal(t) => Prefixed(t, Simultaneous(ps[1..], variables))
  }

  function Prefixed(t: string, r: Result<string, RenderError>): Result<string, RenderError> {
    if r.Ok? then Ok(t + r.value) else r
  }

  /** The pieces after one variable has been filled in. */
  function Bind(ps: seq<Piece>, name: string, value: string): seq<Piece> {
    if ps == [] then [] else
      [if ps[0] == Placeholder(name) then Literal(value) else ps[0]] + Bind(ps[1..], name, value)
  }

  // ----- Proof -----

  /** One step of the replacement past a position where the tag does not begin. */
  lemma ReplaceSkips(s: string, tag: string, with: string)
    requires s != "" && tag != "" && !(tag <= s)
    ensures ReplaceAll(s, tag, with) == [s[0]] + ReplaceAll(s[1..], tag, with)
  {
    if |s| < |tag| {
      assert ReplaceAll(s[1..], tag, with) == s[1..];
      assert s == [s[0]] + s[1..];
    }
  }

  lemma InertTail(t: string)
    requires Inert(t) && t != ""
    ensures Inert(t[1..])
  {
    assert forall i :: 0 <= i < |t| - 1 ==> t[1..][i] == t[i + 1];
  }

  /** No tag begins inside inert text. */
  lemma NoTagAt(t: string, rest: string, tag: string)
    requires Inert(t) && t != "" && Opens(tag)
    ensures !(tag <= t + rest)
  {
    Mismatch(tag, t + rest, if t[0] == '{' then 1 else 0);
  }

  predicate Opens(tag: string) { |tag| >= 2 && tag[0] == '{' && tag[1] == '{' }

  /** Inert text is copied. */
  lemma {:induction false} ReplacePassesInert(t: string, rest: string, tag: string, with: string)
    requires Inert(t) && Opens(tag)
    ensures ReplaceAll(t + rest, tag, with) == t + ReplaceAll(rest, tag, with)
    decreases |t|
  {
    if t == "" {
      assert t + rest == rest;
    } else {
      InertTail(t);
      ReplacePassesInert(t[1..], rest, tag, with);
      NoTagAt(t, rest, tag);
      ReplacePassesOne(t, rest, tag, with);
    }
  }

  lemma ReplacePassesOne(t: string, rest: string, tag: string, with: string)
    requires t != "" && tag != "" && !(tag <= t + rest)
    requires ReplaceAll(t[1..] + rest, tag, with) == t[1..] + ReplaceAll(rest, tag, with)
    ensures ReplaceAll(t + rest, tag, with) == t + ReplaceAll(rest, tag, with)
  {
    var tail, after := t[1..], ReplaceAll(rest, tag, with);
    ReplaceSkips(t + rest, tag, with);
    assert (t + rest)[1..] == tail + rest;
    assert [t[0]] + (tail + after) == t + after;
  }

  lemma {:induction false} IndexPassesInert(t: string, rest: string)
    requires Inert(t)
    ensures Index(t + rest, "{{") == Shifted(Index(rest, "{{"), |t|)
  {
    if t == "" {
      assert t + rest == rest;
    } else {
      assert (t + rest)[1..] == t[1..] + rest;
      NoTagAt(t, rest, "{{");
      InertTail(t);
      IndexPassesInert(t[1..], rest);
    }
  }

  /** A tag with a brace-free name is a prefix of another such tag's text only when it is that tag. */
  lemma TagsDiffer(a: string, b: string, rest: string)
    requires BraceFree(a) && BraceFree(b) && a != b
    ensures !(Tag(a) <= Tag(b) + rest)
  {
    var s := Tag(b) + rest;
    if |a| < |b| {
      assert s[2 + |a|] == b[|a|];
      Mismatch(Tag(a), s, 2 + |a|);
    } else if |b| < |a| {
      assert Tag(a)[2 + |b|] == a[|b|];
      Mismatch(Tag(a), s, 2 + |b|);
    } else {
      var i :| 0 <= i < |a| && a[i] != b[i];
      assert Tag(a)[2 + i] == a[i] && s[2 + i] == b[i];
      Mismatch(Tag(a), s, 2 + i);
    }
  }

  /** A placeholder at which the tag does not begin is copied. */
  lemma ReplacePassesTag(n: string, rest: string, tag: string, with: string)
    requires BraceFree(n) && Opens(tag) && !(tag <= Tag(n) + rest)
    ensures ReplaceAll(Tag(n) + rest, tag, with) == Tag(n) + ReplaceAll(rest, tag, with)
  {
    var tail := "{" + n + "}}";
    assert Tag(n)[1..] == tail;
    ReplacePassesInert(tail, rest, tag, with);
    ReplacePassesOne(Tag(n), rest, tag, with);
  }

  lemma ReplaceAtTag(n: string, rest: string, name: string, value: string)
    requires BraceFree(n) && BraceFree(name)
    ensures ReplaceAll(Tag(n) + rest, Tag(name), value) ==
      (if n == name then value else Tag(n)) + ReplaceAll(rest, Tag(name), value)
  {
    if n == name {
      assert (Tag(n) + rest)[|Tag(n)|..] == rest;
    } else {
      TagsDiffer(name, n, rest);
      ReplacePassesTag(n, rest, Tag(name), value);
    }
  }

  /** Replacing one tag in the text is binding one name in the pieces. */
  lemma {:induction false} ReplaceIsBind(ps: seq<Piece>, name: string, value: string)
    requires WellFormed(ps) && BraceFree(name)
    ensures ReplaceAll(Flatten(ps), Tag(name), value) == Flatten(Bind(ps, name, value))
  {
    if ps != [] {
      var rest, bound := Flatten(ps[1..]), Bind(ps[1..], name, value);
      assert ps[0].Fits();
      ReplaceIsBind(ps[1..], name, value);
      assert Bind(ps, name, value)[1..] == bound;
      match ps[0]
      case Literal(t) =>
        ReplacePassesInert(t, rest, Tag(name), value);
      case Placeholder(n) =>
        ReplaceAtTag(n, rest, name, value);
    }
  }

  lemma {:induction false} BindMeaning(ps: seq<Piece>, name: string, variables: map<string, string>)
    requires name in variables
    ensures Simultaneous(Bind(ps, name, variables[name]), variables - {name}) == Simultaneous(ps, variables)
  {
    if ps != [] {
      BindMeaning(ps[1..], name, variables);
      assert Bind(ps, name, variables[name])[1..] == Bind(ps[1..], name, variables[name]);
    }
  }

  lemma FirstClose(n: string, rest: string)
    requires BraceFree(n)
    ensures Index(Tag(n) + rest, "}}") == Some(|n| + 2)
  {
    var s := Tag(n) + rest;
    forall j | 0 <= j < |n| + 2 ensures !("}}" <= s[j..]) {
      assert s[j..][0] == s[j] && (j >= 2 ==> s[j] == n[j - 2]);
      Mismatch("}}", s[j..], 0);
    }
    IndexIsFirst(s, "}}", |n| + 2);
  }

  lemma CheckPassesInert(t: string, rest: string)
    requires Inert(t)
    ensures Check(t + rest) == Prefixed(t, Check(rest))
  {
    IndexPassesInert(t, rest);
    var i := Index(rest, "{{");
    if i.Some? {
      assert (t + rest)[|t| + i.value..] == rest[i.value..];
    }
  }

  lemma CheckFindsTag(n: string, rest: string)
    requires BraceFree(n)
    ensures Check(Tag(n) + rest) == Err(Missing(Tag(n)))
  {
    var s := Tag(n) + rest;
    assert "{{" <= s && s[0..] == s;
    FirstClose(n, rest);
    assert s[..|n| + 4] == Tag(n);
  }

  /** With nothing left to bind, the check finds exactly the first placeholder. */
  lemma {:induction false} CheckMeaning(ps: seq<Piece>)
    requires WellFormed(ps)
    ensures Check(Flatten(ps)) == Simultaneous(ps, map[])
  {
    if ps != [] {
      assert ps[0].Fits();
      CheckMeaning(ps[1..]);
      match ps[0]
      case Literal(t) => CheckPassesInert(t, Flatten(ps[1..]));
      case Placeholder(n) => CheckFindsTag(n, Flatten(ps[1..]));
    }
  }

  lemma {:induction false} BindKeepsForm(ps: seq<Piece>, name: string, value: string)
    requires WellFormed(ps) && Inert(value)
    ensures WellFormed(Bind(ps, name, value)) && |Bind(ps, name, value)| == |ps|
  {
    if ps != [] {
      assert ps[0].Fits() && WellFormed(ps[1..]);
      BindKeepsForm(ps[1..], name, value);
    }
  }

  // ----- Which keys can be confused with the text around them -----

  /** Text of which every "{{" begins a placeholder with a brace-free name, and which does not end in '{'. */
  predicate IsText(u: string)
    decreases |u|
  {
    if u == "" then true
    else if "{{" <= u then
      var e := Index(u, "}}");
      e.Some? && e.value >= 2 && BraceFree(u[2..e.value]) && IsText(u[e.value + 2..])
    else u != "{" && IsText(u[1..])
  }

  /** The tag of a key with braces must not read as template text: "a}}b" gives "{{a}}b}}", which is also the
      placeholder a followed by "b}}". */
  predicate Unmistakable(key: string) { BraceFree(key) || !IsText(Tag(key)) }

  predicate SafeKeys(keys: set<string>) { forall k :: k in keys ==> Unmistakable(k) }

  /** What is substituted must not bring in a tag of its own. */
  predicate Suitable(variables: map<string, string>) {
    forall k :: k in variables && BraceFree(k) ==> Inert(variables[k])
  }

  predicate Closes(u: string) {
    u == "" || u == "}" || (|u| >= 2 && u[|u| - 1] == '}' && u[|u| - 2] == '}')
  }

  /** A piece of well-formed text that ends in "}}" is itself well-formed text. */
  lemma {:induction false} PrefixIsText(u: string, ps: seq<Piece>)
    requires WellFormed(ps) && u <= Flatten(ps) && Closes(u)
    ensures IsText(u)
    decreases |ps|
  {
    if u != "" {
      var n := |ps[0].Text()|;
      assert ps[0].Fits() && WellFormed(ps[1..]);
      if ps[0].Placeholder? {
        NoPartOfTag(ps[0].name, Flatten(ps[1..]), u);
      }
      if n <= |u| {
        TailClosesToo(u, ps[0], Flatten(ps[1..]));
        PrefixIsText(u[n..], ps[1..]);
        TextAfterPiece(ps[0], u[n..]);
      } else {
        assert u == ps[0].text[..|u|];
        InertIsText(u);
      }
    }
  }

  lemma TailClosesToo(u: string, p: Piece, rest: string)
    requires u <= p.Text() + rest && |p.Text()| <= |u| && Closes(u)
    ensures u == p.Text() + u[|p.Text()|..] && u[|p.Text()|..] <= rest && Closes(u[|p.Text()|..])
  {
    var n := |p.Text()|;
    assert u[..n] == (p.Text() + rest)[..n] == p.Text();
    assert u[n..] == rest[..|u| - n];
  }

  lemma TextAfterPiece(p: Piece, v: string)
    requires p.Fits() && IsText(v)
    ensures IsText(p.Text() + v)
  {
    match p
    case Literal(t) => TextAfterInert(t, v);
    case Placeholder(n) => TextAfterTag(n, v);
  }

  /** Closing braces cannot end inside a placeholder. */
  lemma NoPartOfTag(n: string, rest: string, u: string)
    requires BraceFree(n) && u != "" && u <= Tag(n) + rest && Closes(u)
    ensures |u| >= |n| + 4
  {
    var s := Tag(n) + rest;
    assert u[0] == s[0] == '{';
    assert forall j :: 0 <= j < |u| ==> u[j] == s[j];
    assert forall j :: 2 <= j < |n| + 2 ==> s[j] == n[j - 2];
  }

  lemma {:induction false} InertIsText(t: string)
    requires Inert(t)
    ensures IsText(t)
    decreases |t|
  {
    if t != "" {
      NoTagAt(t, "", "{{");
      assert t + "" == t;
      InertTail(t);
      InertIsText(t[1..]);
    }
  }

  lemma {:induction false} TextAfterInert(t: string, v: string)
    requires Inert(t) && IsText(v)
    ensures IsText(t + v)
    decreases |t|
  {
    if t == "" {
      assert t + v == v;
    } else {
      InertTail(t);
      TextAfterInert(t[1..], v);
      NoTagAt(t, v, "{{");
      assert (t + v)[1..] == t[1..] + v;
    }
  }

  lemma TextAfterTag(n: string, v: string)
    requires BraceFree(n) && IsText(v)
    ensures IsText(Tag(n) + v)
  {
    var s := Tag(n) + v;
    FirstClose(n, v);
    assert s[2..|n| + 2] == n && s[|n| + 4..] == v;
  }

  lemma PlainStep(u: string)
    requires IsText(u) && u != "" && !("{{" <= u)
    ensures u != "{" && IsText(u[1..])
  {}

  lemma SingleBrace(u: string)
    requires IsText(u) && u != "" && u[0] == '{' && !("{{" <= u)
    ensures |u| >= 2 && u[1] != '{' && IsText(u[2..])
  {
    PlainStep(u);
    assert u == [u[0]] + u[1..] && u[1..] != "";
    assert u[..2] == [u[0], u[1]];
    Mismatch("{{", u[1..], 0);
    PlainStep(u[1..]);
    assert u[1..][1..] == u[2..];
  }

  function Grown(p: Piece, ps: seq<Piece>): (r: seq<Piece>)
    requires p.Fits() && WellFormed(ps)
    ensures WellFormed(r) && Flatten(r) == p.Text() + Flatten(ps)
  {
    var r := [p] + ps;
    assert r[1..] == ps;
    r
  }

  /** And such text has pieces. */
  function Parse(u: string): (ps: seq<Piece>)
    requires IsText(u)
    ensures WellFormed(ps) && Flatten(ps) == u
    decreases |u|
  {
    if u == "" then []
    else if "{{" <= u then
      var e := Index(u, "}}").value;
      ClosesAt(u, e);
      Grown(Placeholder(u[2..e]), Parse(u[e + 2..]))
    else if u[0] == '{' then
      SingleBrace(u);
      Grown(Literal(u[..2]), Parse(u[2..]))
    else Grown(Literal(u[..1]), Parse(u[1..]))
  }

  lemma ClosesAt(u: string, e: nat)
    requires "{{" <= u && Index(u, "}}") == Some(e) && e >= 2
    ensures u == Tag(u[2..e]) + u[e + 2..]
  {
    IndexFinds(u, "}}");
    assert u[e..] == "}}" + u[e + 2..];
    assert u == "{{" + u[2..e] + u[e..];
  }

  /** A key that cannot be mistaken for text leaves every template alone, unless it is a name. */
  lemma {:induction false} ReplaceChangesNothing(ps: seq<Piece>, key: string, value: string)
    requires WellFormed(ps) && !BraceFree(key) && Unmistakable(key)
    ensures ReplaceAll(Flatten(ps), Tag(key), value) == Flatten(ps)
  {
    if ps != [] {
      var rest := Flatten(ps[1..]);
      assert ps[0].Fits();
      ReplaceChangesNothing(ps[1..], key, value);
      match ps[0]
      case Literal(t) =>
        ReplacePassesInert(t, rest, Tag(key), value);
      case Placeholder(n) =>
        if Tag(key) <= Tag(n) + rest {
          PrefixIsText(Tag(key), ps);
        }
        ReplacePassesTag(n, rest, Tag(key), value);
    }
  }

  lemma {:induction false} BracedKeysMeanNothing(ps: seq<Piece>, key: string, variables: map<string, string>)
    requires WellFormed(ps) && !BraceFree(key)
    ensures Simultaneous(ps, variables - {key}) == Simultaneous(ps, variables)
  {
    if ps != [] {
      assert ps[0].Fits();
      BracedKeysMeanNothing(ps[1..], key, variables);
    }
  }

  // ----- Main results -----

  /** Whatever order the map is visited in, Render is the simultaneous substitution. */
  lemma {:induction false} RenderIsSimultaneous(ps: seq<Piece>, variables: map<string, string>, bs: Bindings)
    requires WellFormed(ps) && SafeKeys(variables.Keys) && Suitable(variables)
    requires Ranges(bs, variables)
    ensures RenderIn(Flatten(ps), bs) == Simultaneous(ps, variables)
    decreases |bs|
  {
    if bs == [] {
      CheckMeaning(ps);
    } else {
      var (name, value) := bs[0];
      var rest := variables - {name};
      if BraceFree(name) {
        ReplaceIsBind(ps, name, value);
        BindKeepsForm(ps, name, value);
        RenderIsSimultaneous(Bind(ps, name, value), rest, bs[1..]);
        BindMeaning(ps, name, variables);
      } else {
        ReplaceChangesNothing(ps, name, value);
        RenderIsSimultaneous(ps, rest, bs[1..]);
        BracedKeysMeanNothing(ps, name, variables);
      }
    }
  }

  lemma {:induction false} SomeOrder(variables: map<string, string>) returns (bs: Bindings)
    ensures Ranges(bs, variables)
    decreases variables.Keys
  {
    if variables == map[] {
      bs := [];
    } else {
      var k :| k in variables;
      var rest := SomeOrder(variables - {k});
      bs := [(k, variables[k])] + rest;
      assert bs[1..] == rest;
    }
  }

  /** On every template made of pieces and in every order, Render is the simultaneous substitution. */
  ghost predicate AlwaysSimultaneous(variables: map<string, string>) {
    forall ps, bs :: WellFormed(ps) && Ranges(bs, variables) ==>
      RenderIn(Flatten(ps), bs) == Simultaneous(ps, variables)
  }

  lemma SuitableIsEnough(variables: map<string, string>)
    requires SafeKeys(variables.Keys) && Suitable(variables)
    ensures AlwaysSimultaneous(variables)
  {
    forall ps, bs | WellFormed(ps) && Ranges(bs, variables)
      ensures RenderIn(Flatten(ps), bs) == Simultaneous(ps, variables)
    {
      RenderIsSimultaneous(ps, variables, bs);
    }
  }

  lemma Differs(ps: seq<Piece>, variables: map<string, string>, bs: Bindings)
    requires WellFormed(ps) && Ranges(bs, variables) && RenderIn(Flatten(ps), bs) != Simultaneous(ps, variables)
    ensures !AlwaysSimultaneous(variables)
  {}

  lemma OpenBracesFound(text: string, i: nat)
    requires i + 1 < |text| && text[i] == '{' && text[i + 1] == '{'
    ensures Index(text, "{{").Some?
  {
    assert text[i..][..2] == "{{";
    IndexIsFirst(text, "{{", i);
  }

  /** A value that holds "{{" or ends in '{' cannot be rendered in every template. */
  lemma UnsuitableFails(variables: map<string, string>, k: string)
    requires k in variables && BraceFree(k) && !Inert(variables[k])
    ensures !AlwaysSimultaneous(variables)
  {
    var v := variables[k];
    var i :| 0 <= i < |v| && v[i] == '{' && !(i + 1 < |v| && v[i + 1] != '{');
    var ps := [Placeholder(k), Literal("{a")];
    var bs := SomeOrder(variables);
    var text := v + "{a";
    SimultaneousPair(k, "{a", variables);
    assert text[i] == v[i] && text[i + 1] == (if i + 1 < |v| then v[i + 1] else '{');
    OpenBracesFound(text, i);
    CheckedTextIsClean(Substitute(Flatten(ps), bs));
    Differs(ps, variables, bs);
  }

  lemma SimultaneousPair(k: string, t: string, variables: map<string, string>)
    requires k in variables
    ensures Simultaneous([Placeholder(k), Literal(t)], variables) == Ok(variables[k] + t)
  {
    var ps := [Placeholder(k), Literal(t)];
    assert ps[1..] == [Literal(t)] && ps[1..][1..] == [];
    assert Simultaneous([], variables) == Ok("") && t + "" == t;
    assert Simultaneous(ps[1..], variables) == Ok(t);
  }

  /** Render never returns text that still holds "{{". */
  lemma CheckedTextIsClean(body: string)
    ensures Check(body).Ok? ==> Index(Check(body).value, "{{").None?
  {}

  /** With keys that cannot be mistaken for text, Render agrees with simultaneous substitution on every
      template and in every order exactly when no value that can be named holds "{{" or ends in '{'. */
  lemma RenderExactness(variables: map<string, string>)
    requires SafeKeys(variables.Keys)
    ensures Suitable(variables) <==> AlwaysSimultaneous(variables)
  {
    if Suitable(variables) {
      SuitableIsEnough(variables);
    } else {
      var k :| k in variables && BraceFree(k) && !Inert(variables[k]);
      UnsuitableFails(variables, k);
    }
  }

  /** And those are exactly the sets of keys with which it agrees whatever inert values they have. */
  lemma KeysExactness(keys: set<string>)
    ensures SafeKeys(keys) <==> AlwaysWithInertValues(keys)
  {
    if SafeKeys(keys) {
      forall variables: map<string, string> | variables.Keys == keys && AllInert(variables)
        ensures AlwaysSimultaneous(variables)
      {
        SuitableIsEnough(variables);
      }
    } else {
      var k :| k in keys && !Unmistakable(k);
      MistakableFails(keys, k);
    }
  }

  predicate AllInert(variables: map<string, string>) { forall k :: k in variables ==> Inert(variables[k]) }

  ghost predicate AlwaysWithInertValues(keys: set<string>) {
    forall variables: map<string, string> :: variables.Keys == keys && AllInert(variables) ==>
      AlwaysSimultaneous(variables)
  }

  /** Its tag read as text means one thing, and the replacement of the tag another. */
  lemma MistakableFails(keys: set<string>, key: string)
    requires key in keys && !Unmistakable(key)
    ensures !AlwaysWithInertValues(keys)
  {
    var ps := Parse(Tag(key));
    var blank: map<string, string> := map k | k in keys :: "";
    var value := if Simultaneous(ps, blank) == Ok("x") then "y" else "x";
    var variables := blank[key := value];
    var rest := SomeOrder(variables - {key});
    var bs := [(key, value)] + rest;
    BracedKeysMeanNothing(ps, key, variables);
    BracedKeysMeanNothing(ps, key, blank);
    assert variables - {key} == blank - {key};
    assert bs[1..] == rest;
    OwnTagIsReplaced(key, value, rest);
    Differs(ps, variables, bs);
    NotAlways(keys, variables);
  }

  lemma NotAlways(keys: set<string>, variables: map<string, string>)
    requires variables.Keys == keys && AllInert(variables) && !AlwaysSimultaneous(variables)
    ensures !AlwaysWithInertValues(keys)
  {}

  lemma OwnTagIsReplaced(key: string, value: string, rest: Bindings)
    requires value == "x" || value == "y"
    ensures RenderIn(Tag(key), [(key, value)] + rest) == Ok(value)
  {
    assert ([(key, value)] + rest)[1..] == rest;
    assert Tag(key)[|Tag(key)|..] == "" && value + "" == value;
    assert ReplaceAll(Tag(key), Tag(key), value) == value;
    LetterIsLeftAlone(value, rest);
  }

  lemma {:induction false} LetterIsLeftAlone(letter: string, bs: Bindings)
    requires letter == "x" || letter == "y"
    ensures RenderIn(letter, bs) == Ok(letter)
    decreases |bs|
  {
    if bs == [] {
      assert letter[1..] == "";
      assert Index("", "{{").None?;
    } else {
      assert |Tag(bs[0].0)| > |letter|;
      LetterIsLeftAlone(letter, bs[1..]);
    }
  }

}
