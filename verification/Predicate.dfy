/** Three-valued match predicates (internal/matchpredicate): compile a configured tree, then
    evaluate it as request and response headers arrive. */
module Predicate {
  import opened Options

  datatype Value = Undetermined | True | False

  /** A header matcher is named by a number; a header map is the set of matchers it satisfies. */
  type Matcher = nat
  type Headers = set<Matcher>

  /** One configured header match; headermatch.New refuses the invalid ones. */
  datatype HeaderCfg = HeaderCfg(valid: bool, matcher: Matcher)

  /** The configured tree: the ten rule arms, a nil pointer, and a predicate without a rule. */
  datatype Config =
    | Nil
    | Unset
    | AnyMatch
    | NotMatch(rule: Config)
    | OrMatch(rules: seq<Config>)
    | AndMatch(rules: seq<Config>)
    | RequestHeaders(headers: seq<HeaderCfg>)
    | ResponseHeaders(headers: seq<HeaderCfg>)
    | Trailers(response: bool)
    | GenericBody(response: bool)

  datatype Node =
    | AnyNode
    | NotNode(child: Node)
    | AndNode(children: seq<Node>)
    | OrNode(children: seq<Node>)
    | HeadersNode(matchers: seq<Matcher>, response: bool)

  const MAX_DEPTH: nat := 32

  // ---------------------------------------------------------------------------
  // Compilation
  // ---------------------------------------------------------------------------

  /** Every arm supported, every list non-empty, every header match valid. */
  predicate WellFormed(c: Config) {
    match c
    case AnyMatch => true
    case NotMatch(r) => WellFormed(r)
    case OrMatch(rs) => rs != [] && forall i :: 0 <= i < |rs| ==> WellFormed(rs[i])
    case AndMatch(rs) => rs != [] && forall i :: 0 <= i < |rs| ==> WellFormed(rs[i])
    case RequestHeaders(hs) => hs != [] && forall i :: 0 <= i < |hs| ==> hs[i].valid
    case ResponseHeaders(hs) => hs != [] && forall i :: 0 <= i < |hs| ==> hs[i].valid
    case _ => false
  }

  /** No path from the root is longer than d nodes. */
  predicate Within(c: Config, d: int) {
    d >= 1 &&
    match c
    case NotMatch(r) => Within(r, d - 1)
    case OrMatch(rs) => forall i :: 0 <= i < |rs| ==> Within(rs[i], d - 1)
    case AndMatch(rs) => forall i :: 0 <= i < |rs| ==> Within(rs[i], d - 1)
    case _ => true
  }

  function Matchers(hs: seq<HeaderCfg>): (ms: seq<Matcher>)
    ensures |ms| == |hs| && forall i :: 0 <= i < |hs| ==> ms[i] == hs[i].matcher
  {
    seq(|hs|, i requires 0 <= i < |hs| => hs[i].matcher)
  }

  /** The node tree with the shape of the configured one. */
  function NodeOf(c: Config): Node
    requires WellFormed(c)
  {
    match c
    case AnyMatch => AnyNode
    case NotMatch(r) => NotNode(NodeOf(r))
    case OrMatch(rs) => OrNode(seq(|rs|, i requires 0 <= i < |rs| => NodeOf(rs[i])))
    case AndMatch(rs) => AndNode(seq(|rs|, i requires 0 <= i < |rs| => NodeOf(rs[i])))
    case RequestHeaders(hs) => HeadersNode(Matchers(hs), false)
    case ResponseHeaders(hs) => HeadersNode(Matchers(hs), true)
  }

  /** compileHeaders. */
  method CompileHeaders(hs: seq<HeaderCfg>, response: bool) returns (n: Option<Node>)
    ensures n.Some? <==> hs != [] && forall i :: 0 <= i < |hs| ==> hs[i].valid
    ensures n.Some? ==> n.value == HeadersNode(Matchers(hs), response)
  {
    if |hs| == 0 {
      return None;
    }
    var ms: seq<Matcher> := [];
    for i := 0 to |hs|
      invariant ms == Matchers(hs)[..i]
      invariant forall j :: 0 <= j < i ==> hs[j].valid
    {
      if !hs[i].valid {
        return None;
      }
      ms := ms + [hs[i].matcher];
    }
    return Some(HeadersNode(ms, response));
  }

  /** compileNode accepts exactly the well-formed trees that end by depth 32, and keeps their shape. */
  method CompileNode(c: Config, depth: nat) returns (n: Option<Node>)
    ensures n.Some? <==> WellFormed(c) && Within(c, MAX_DEPTH - depth + 1)
    ensures n.Some? ==> n.value == NodeOf(c)
    decreases c, 0
  {
    if depth > MAX_DEPTH {
      return None;
    }
    match c
    case AnyMatch => n := Some(AnyNode);
    case NotMatch(r) =>
      var child := CompileNode(r, depth + 1);
      n := if child.None? then None else Some(NotNode(child.value));
    case OrMatch(rs) =>
      var kids := CompileSet(c, rs, depth);
      n := if kids.None? then None else Some(OrNode(kids.value));
    case AndMatch(rs) =>
      var kids := CompileSet(c, rs, depth);
      n := if kids.None? then None else Some(AndNode(kids.value));
    case RequestHeaders(hs) => n := CompileHeaders(hs, false);
    case ResponseHeaders(hs) => n := CompileHeaders(hs, true);
    case _ => n := None;
  }

  /** compileSet for the rules of c. */
  method CompileSet(ghost c: Config, rules: seq<Config>, depth: nat) returns (kids: Option<seq<Node>>)
    requires c == OrMatch(rules) || c == AndMatch(rules)
    requires depth <= MAX_DEPTH
    ensures kids.Some? <==> rules != [] && forall i :: 0 <= i < |rules| ==> WellFormed(rules[i]) && Within(rules[i], MAX_DEPTH - depth)
    ensures kids.Some? ==> |kids.value| == |rules| && forall i :: 0 <= i < |rules| ==> kids.value[i] == NodeOf(rules[i])
    decreases c, 0, 0
  {
    if |rules| == 0 {
      return None;
    }
    var ks: seq<Node> := [];
    for i := 0 to |rules|
      invariant |ks| == i
      invariant forall j :: 0 <= j < i ==> WellFormed(rules[j]) && Within(rules[j], MAX_DEPTH - depth)
      invariant forall j :: 0 <= j < i ==> ks[j] == NodeOf(rules[j])
    {
      var k := CompileNode(rules[i], depth + 1);
      if k.None? {
        return None;
      }
      ks := ks + [k.value];
    }
    return Some(ks);
  }

  /** Compile. */
  method Compile(c: Config) returns (n: Option<Node>)
    ensures n.Some? <==> WellFormed(c) && Within(c, MAX_DEPTH)
    ensures n.Some? ==> n.value == NodeOf(c)
  {
    n := CompileNode(c, 1);
  }

  // ---------------------------------------------------------------------------
  // Evaluation
  // ---------------------------------------------------------------------------

  /** The inputs seen so far; a direction that has not arrived is None. */
  datatype Seen = Seen(request: Option<Headers>, response: Option<Headers>)

  predicate AllIn(ms: seq<Matcher>, h: Headers) {
    forall i :: 0 <= i < |ms| ==> ms[i] in h
  }

  function Not(v: Value): Value {
    match v case True => False case False => True case Undetermined => Undetermined
  }

  /** Kleene's connectives over all children. */
  function Eval(n: Node, s: Seen): Value {
    match n
    case AnyNode => True
    case NotNode(c) => Not(Eval(c, s))
    case AndNode(cs) =>
      if exists i :: 0 <= i < |cs| && Eval(cs[i], s) == False then False
      else if exists i :: 0 <= i < |cs| && Eval(cs[i], s) == Undetermined then Undetermined
      else True
    case OrNode(cs) =>
      if exists i :: 0 <= i < |cs| && Eval(cs[i], s) == True then True
      else if exists i :: 0 <= i < |cs| && Eval(cs[i], s) == Undetermined then Undetermined
      else False
    case HeadersNode(ms, response) =>
      var h := if response then s.response else s.request;
      if h.None? then Undetermined else if AllIn(ms, h.value) then True else False
  }

  /** node.eval with its loops and early exits. */
  method EvalNode(n: Node, s: Seen) returns (v: Value)
    ensures v == Eval(n, s)
    decreases n
  {
    match n
    case AnyNode => return True;
    case NotNode(c) =>
      var inner := EvalNode(c, s);
      return Not(inner);
    case AndNode(cs) =>
      var sawUndetermined := false;
      for i := 0 to |cs|
        invariant forall j :: 0 <= j < i ==> Eval(cs[j], s) != False
        invariant sawUndetermined <==> exists j :: 0 <= j < i && Eval(cs[j], s) == Undetermined
      {
        var inner := EvalNode(cs[i], s);
        if inner == False {
          return False;
        }
        if inner == Undetermined {
          sawUndetermined := true;
        }
      }
      return if sawUndetermined then Undetermined else True;
    case OrNode(cs) =>
      var sawUndetermined := false;
      for i := 0 to |cs|
        invariant forall j :: 0 <= j < i ==> Eval(cs[j], s) != True
        invariant sawUndetermined <==> exists j :: 0 <= j < i && Eval(cs[j], s) == Undetermined
      {
        var inner := EvalNode(cs[i], s);
        if inner == True {
          return True;
        }
        if inner == Undetermined {
          sawUndetermined := true;
        }
      }
      return if sawUndetermined then Undetermined else False;
    case HeadersNode(ms, response) =>
      var h := if response then s.response else s.request;
      if h.None? {
        return Undetermined;
      }
      for i := 0 to |ms|
        invariant forall j :: 0 <= j < i ==> ms[j] in h.value
      {
        if ms[i] !in h.value {
          return False;
        }
      }
      return True;
  }

  /** later knows at least what s knows. */
  predicate Extends(s: Seen, later: Seen) {
    && (s.request.Some? ==> later.request == s.request)
    && (s.response.Some? ==> later.response == s.response)
  }

  /** A determined value survives the arrival of more headers. */
  lemma {:induction false} Monotone(n: Node, s: Seen, later: Seen)
    requires Extends(s, later) && Eval(n, s) != Undetermined
    ensures Eval(n, later) == Eval(n, s)
    decreases n
  {
    match n
    case NotNode(c) => Monotone(c, s, later);
    case AndNode(cs) =>
      forall i | 0 <= i < |cs| && Eval(cs[i], s) != Undetermined ensures Eval(cs[i], later) == Eval(cs[i], s) {
        Monotone(cs[i], s, later);
      }
    case OrNode(cs) =>
      forall i | 0 <= i < |cs| && Eval(cs[i], s) != Undetermined ensures Eval(cs[i], later) == Eval(cs[i], s) {
        Monotone(cs[i], s, later);
      }
    case _ =>
  }

  /** Plain two-valued meaning of a configured tree. */
  predicate Holds(c: Config, request: Headers, response: Headers) {
    match c
    case AnyMatch => true
    case NotMatch(r) => !Holds(r, request, response)
    case OrMatch(rs) => exists i :: 0 <= i < |rs| && Holds(rs[i], request, response)
    case AndMatch(rs) => forall i :: 0 <= i < |rs| ==> Holds(rs[i], request, response)
    case RequestHeaders(hs) => AllIn(Matchers(hs), request)
    case ResponseHeaders(hs) => AllIn(Matchers(hs), response)
    case _ => false
  }

  function Truth(b: bool): Value { if b then True else False }

  /** With both directions in, a compiled tree has the two-valued meaning of its configuration. */
  lemma {:induction false} Classical(c: Config, request: Headers, response: Headers)
    requires WellFormed(c)
    ensures Eval(NodeOf(c), Seen(Some(request), Some(response))) == Truth(Holds(c, request, response))
    decreases c
  {
    var s := Seen(Some(request), Some(response));
    match c
    case NotMatch(r) => Classical(r, request, response);
    case OrMatch(rs) => ClassicalSet(c, rs, request, response);
    case AndMatch(rs) => ClassicalSet(c, rs, request, response);
    case _ =>
  }

  lemma ClassicalSet(c: Config, rs: seq<Config>, request: Headers, response: Headers)
    requires WellFormed(c) && (c == OrMatch(rs) || c == AndMatch(rs))
    ensures var s, kids := Seen(Some(request), Some(response)), NodeOf(c).children;
            |kids| == |rs| && forall i :: 0 <= i < |rs| ==> Eval(kids[i], s) == Truth(Holds(rs[i], request, response))
    decreases c, 0
  {
    forall i | 0 <= i < |rs| ensures Eval(NodeOf(c).children[i], Seen(Some(request), Some(response))) == Truth(Holds(rs[i], request, response)) {
      Classical(rs[i], request, response);
    }
  }

  /** An early decision is the final one: whatever a partial view determines is what the complete
      headers mean. */
  lemma EarlyDecisionIsFinal(c: Config, s: Seen, request: Headers, response: Headers)
    requires WellFormed(c) && Extends(s, Seen(Some(request), Some(response))) && Eval(NodeOf(c), s) != Undetermined
    ensures Eval(NodeOf(c), s) == Truth(Holds(c, request, response))
  {
    Monotone(NodeOf(c), s, Seen(Some(request), Some(response)));
    Classical(c, request, response);
  }

  /** One stream's evaluation of a shared program compiled from c. */
  class Evaluator {
    const root: Node
    var request: Option<Headers>
    var response: Option<Headers>

    constructor (root: Node)
      ensures this.root == root && request.None? && response.None?
    {
      this.root := root;
      request, response := None, None;
    }

    method FeedRequestHeaders(h: Headers)
      modifies this`request
      ensures request == Some(h)
    {
      request := Some(h);
    }

    method FeedResponseHeaders(h: Headers)
      modifies this`response
      ensures response == Some(h)
    {
      response := Some(h);
    }

    method Value() returns (v: Value)
      ensures v == Eval(root, Seen(request, response))
    {
      v := EvalNode(root, Seen(request, response));
    }

    /** Resolve: once both directions have been fed, in either order, the configured meaning. */
    method Resolve(ghost c: Config) returns (b: bool)
      requires WellFormed(c) && root == NodeOf(c)
      ensures b <==> Eval(root, Seen(request, response)) == True
      ensures request.Some? && response.Some? ==> b == Holds(c, request.value, response.value)
    {
      var v := Value();
      if request.Some? && response.Some? {
        Classical(c, request.value, response.value);
      }
      return v == True;
    }
  }
}
