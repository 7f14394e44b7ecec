/** The OTLP access-log operator engine (internal/accesslog/otlpformat.go): compile a
    %OPERATOR%-templated string or value tree once, substitute per record. */
module OtlpTemplate {
  import opened Options

  /** A record answers each supported operator token with a string. */
  type Record = string -> string

  const OPERATORS: set<string> := {
    "START_TIME", "REQ(:METHOD)", "REQ(:PATH)", "REQ(:AUTHORITY)", "REQ(USER-AGENT)", "PROTOCOL",
    "RESPONSE_CODE", "BYTES_SENT", "DURATION", "UPSTREAM_HOST"}

  predicate Supported(token: string) { token in OPERATORS }

  datatype Segment = Lit(text: string) | Op(token: string)

  /** The position of the next percent sign, or the length. */
  function Percent(s: string): (n: nat)
    ensures n <= |s| && (forall i :: 0 <= i < n ==> s[i] != '%') && (n < |s| ==> s[n] == '%')
  {
    if s == [] || s[0] == '%' then 0 else 1 + Percent(s[1..])
  }

  // ---------------------------------------------------------------------------
  // Direct substitution
  // ---------------------------------------------------------------------------

  function Prefixed(p: string, r: Option<string>): Option<string> {
    match r case None => None case Some(t) => Some(p + t)
  }

  /** What a template means: read left to right, %% is a percent sign, %TOKEN% the record's value. */
  function Subst(s: string, rec: Record): (r: Option<string>)
    decreases |s|
  {
    if s == [] then Some([])
    else if s[0] != '%' then Prefixed([s[0]], Subst(s[1..], rec))
    else if |s| > 1 && s[1] == '%' then Prefixed("%", Subst(s[2..], rec))
    else
      var end := Percent(s[1..]);
      if end == |s| - 1 || !Supported(s[1..1 + end]) then None
      else Prefixed(rec(s[1..1 + end]), Subst(s[end + 2..], rec))
  }

  // ---------------------------------------------------------------------------
  // Compilation
  // ---------------------------------------------------------------------------

  function Flushed(lit: string): seq<Segment> {
    if lit == [] then [] else [Lit(lit)]
  }

  function Joined(p: seq<Segment>, r: Option<seq<Segment>>): Option<seq<Segment>> {
    match r case None => None case Some(t) => Some(p + t)
  }

  /** The segments of s when lit is the literal text pending before it. */
  function Compiled(s: string, lit: string): (r: Option<seq<Segment>>)
    decreases |s|
  {
    if s == [] then Some(Flushed(lit))
    else if s[0] != '%' then Compiled(s[1..], lit + [s[0]])
    else if |s| > 1 && s[1] == '%' then Compiled(s[2..], lit + "%")
    else
      var end := Percent(s[1..]);
      if end == |s| - 1 || !Supported(s[1..1 + end]) then None
      else Joined(Flushed(lit) + [Op(s[1..1 + end])], Compiled(s[end + 2..], []))
  }

  function EvalSegment(sg: Segment, rec: Record): string {
    match sg case Lit(t) => t case Op(k) => rec(k)
  }

  function Eval(segs: seq<Segment>, rec: Record): string {
    if segs == [] then [] else EvalSegment(segs[0], rec) + Eval(segs[1..], rec)
  }

  lemma {:induction false} EvalJoin(a: seq<Segment>, b: seq<Segment>, rec: Record)
    ensures Eval(a + b, rec) == Eval(a, rec) + Eval(b, rec)
  {
    if a == [] {
      assert a + b == b;
    } else {
      assert (a + b)[1..] == a[1..] + b;
      EvalJoin(a[1..], b, rec);
    }
  }

  lemma EvalFlushed(lit: string, rec: Record)
    ensures Eval(Flushed(lit), rec) == lit
  {
  }

  lemma EvalOne(sg: Segment, rec: Record)
    ensures Eval([sg], rec) == EvalSegment(sg, rec)
  {
  }

  function Evaluated(r: Option<seq<Segment>>, rec: Record): Option<string> {
    match r case None => None case Some(segs) => Some(Eval(segs, rec))
  }

  /** Compiling and then evaluating is direct substitution, for every string and every record. */
  lemma {:induction false} CompiledMeans(s: string, lit: string, rec: Record)
    ensures Evaluated(Compiled(s, lit), rec) == Prefixed(lit, Subst(s, rec))
    decreases |s|
  {
    if s == [] {
      EvalFlushed(lit, rec);
    } else if s[0] != '%' {
      CompiledMeans(s[1..], lit + [s[0]], rec);
      PrefixTwice(lit, [s[0]], Subst(s[1..], rec));
    } else if |s| > 1 && s[1] == '%' {
      CompiledMeans(s[2..], lit + "%", rec);
      PrefixTwice(lit, "%", Subst(s[2..], rec));
    } else {
      OperatorMeans(s, lit, rec);
    }
  }

  lemma OperatorMeans(s: string, lit: string, rec: Record)
    requires s != [] && s[0] == '%' && !(|s| > 1 && s[1] == '%')
    ensures Evaluated(Compiled(s, lit), rec) == Prefixed(lit, Subst(s, rec))
    decreases |s|, 0
  {
    hide Supported;
    var end := Percent(s[1..]);
    if end < |s| - 1 && Supported(s[1..1 + end]) {
      var k, rest := s[1..1 + end], s[end + 2..];
      CompiledMeans(rest, [], rec);
      if Compiled(rest, []).Some? {
        var tail := Compiled(rest, []).value;
        EvalJoin(Flushed(lit) + [Op(k)], tail, rec);
        EvalJoin(Flushed(lit), [Op(k)], rec);
        EvalFlushed(lit, rec);
        EvalOne(Op(k), rec);
        PrefixTwice(lit, rec(k), Subst(rest, rec));
        assert [] + Subst(rest, rec).value == Subst(rest, rec).value;
      }
    }
  }

  lemma PrefixTwice(a: string, b: string, r: Option<string>)
    ensures Prefixed(a, Prefixed(b, r)) == Prefixed(a + b, r)
  {
    if r.Some? {
      assert a + (b + r.value) == a + b + r.value;
    }
  }

  /** The template theorem: compilation fails exactly when substitution is undefined, and otherwise
      evaluates to it. */
  lemma TemplateMeaning(s: string, rec: Record)
    ensures Compiled(s, []).Some? <==> Subst(s, rec).Some?
    ensures Compiled(s, []).Some? ==> Subst(s, rec) == Some(Eval(Compiled(s, []).value, rec))
  {
    CompiledMeans(s, [], rec);
    if Subst(s, rec).Some? {
      assert [] + Subst(s, rec).value == Subst(s, rec).value;
    }
  }

  // The accepted strings, described without a scanner.

  /** s is a concatenation of plain characters, doubled percent signs and known operators. */
  ghost predicate Template(s: string)
    decreases |s|
  {
    || s == []
    || (s[0] != '%' && Template(s[1..]))
    || (|s| > 1 && s[0] == '%' && s[1] == '%' && Template(s[2..]))
    || exists k :: OpensWith(s, k) && Template(s[|k| + 2..])
  }

  predicate OpensWith(s: string, k: string) {
    Supported(k) && |k| + 2 <= |s| && s[0] == '%' && s[1..|k| + 1] == k && s[|k| + 1] == '%'
  }

  predicate Clean(k: string) {
    k != [] && forall i :: 0 <= i < |k| ==> k[i] != '%'
  }

  lemma OperatorsClean(k: string)
    requires Supported(k)
    ensures Clean(k)
  {
  }

  lemma PercentAt(s: string, n: nat)
    requires n < |s| && s[n] == '%' && forall i :: 0 <= i < n ==> s[i] != '%'
    ensures Percent(s) == n
  {
  }

  /** An opening operator is the one the scanner cuts out. */
  lemma OpensIsToken(s: string, k: string)
    requires OpensWith(s, k)
    ensures s[1] != '%' && Percent(s[1..]) == |k|
  {
    hide Supported;
    OperatorsClean(k);
    assert s[1] == k[0];
    forall i | 0 <= i < |k| ensures s[1..][i] != '%' {
      assert s[1..][i] == k[i];
    }
    PercentAt(s[1..], |k|);
  }

  /** Compilation fails exactly on an unterminated or unknown operator. */
  lemma {:induction false} CompilesTemplates(s: string, lit: string)
    ensures Compiled(s, lit).Some? <==> Template(s)
    decreases |s|
  {
    hide Supported;
    if s == [] {
    } else {
      if s[0] != '%' {
        CompilesTemplates(s[1..], lit + [s[0]]);
      } else if |s| > 1 && s[1] == '%' {
        CompilesTemplates(s[2..], lit + "%");
        forall k | OpensWith(s, k) ensures false {
          OpensIsToken(s, k);
        }
      } else {
        CompilesOperator(s, lit);
      }
    }
  }

  lemma CompilesOperator(s: string, lit: string)
    requires s != [] && s[0] == '%' && !(|s| > 1 && s[1] == '%')
    ensures Compiled(s, lit).Some? <==> Template(s)
    decreases |s|, 0
  {
    hide Supported;
    TemplateOperator(s);
    var end := Percent(s[1..]);
    if end < |s| - 1 {
      CompilesTemplates(s[end + 2..], []);
    }
  }

  lemma TemplateOperator(s: string)
    requires s != [] && s[0] == '%' && !(|s| > 1 && s[1] == '%')
    ensures var end := Percent(s[1..]);
            Template(s) <==> end < |s| - 1 && Supported(s[1..1 + end]) && Template(s[end + 2..])
  {
    hide Supported, Template;
    var end := Percent(s[1..]);
    if Template(s) {
      TemplateOpens(s);
    }
    if end < |s| - 1 && Supported(s[1..1 + end]) && Template(s[end + 2..]) {
      OpensTemplate(s, s[1..1 + end]);
    }
  }

  lemma TemplateOpens(s: string)
    requires s != [] && s[0] == '%' && !(|s| > 1 && s[1] == '%') && Template(s)
    ensures var end := Percent(s[1..]); end < |s| - 1 && Supported(s[1..1 + end]) && Template(s[end + 2..])
  {
    hide Supported, Percent;
    var k :| OpensWith(s, k) && Template(s[|k| + 2..]);
    OpensIsToken(s, k);
  }

  lemma OpensTemplate(s: string, k: string)
    requires OpensWith(s, k) && Template(s[|k| + 2..])
    ensures Template(s)
  {
    hide Supported;
  }

  /** %% everywhere: the text with every percent sign doubled. */
  function Doubled(t: string): string {
    if t == [] then [] else (if t[0] == '%' then "%%" else [t[0]]) + Doubled(t[1..])
  }

  /** Doubling the percent signs of any text yields a template that evaluates to that text. */
  lemma {:induction false} DoublingEscapes(t: string, rec: Record)
    ensures Subst(Doubled(t), rec) == Some(t)
  {
    if t == [] {
    } else {
      DoublingEscapes(t[1..], rec);
      var d := Doubled(t);
      if t[0] == '%' {
        assert d[0] == '%' && d[1] == '%' && d[2..] == Doubled(t[1..]);
        assert "%" + t[1..] == t;
      } else {
        assert d[0] == t[0] && d[1..] == Doubled(t[1..]);
        assert [t[0]] + t[1..] == t;
      }
    }
  }

  // ---------------------------------------------------------------------------
  // The scanner and the evaluator
  // ---------------------------------------------------------------------------

  /** strings.IndexByte(s, '%'). */
  method IndexPercent(s: string) returns (n: nat)
    ensures n == Percent(s)
  {
    n := 0;
    while n < |s| && s[n] != '%'
      invariant n <= |s|
      invariant Percent(s) == n + Percent(s[n..])
    {
      assert s[n..][1..] == s[n + 1..];
      n := n + 1;
    }
  }

  // One turn of the scanner, by the character it stands on.

  lemma ScanPlain(s: string, i: nat, lit: string)
    requires i < |s| && s[i] != '%'
    ensures Compiled(s[i..], lit) == Compiled(s[i + 1..], lit + [s[i]])
  {
    assert s[i..][1..] == s[i + 1..];
  }

  lemma ScanEscape(s: string, i: nat, lit: string)
    requires i + 1 < |s| && s[i] == s[i + 1] == '%'
    ensures Compiled(s[i..], lit) == Compiled(s[i + 2..], lit + "%")
  {
    assert s[i..][2..] == s[i + 2..];
  }

  lemma ScanOperator(s: string, i: nat, lit: string, end: nat)
    requires i < |s| && s[i] == '%' && !(i + 1 < |s| && s[i + 1] == '%') && end == Percent(s[i + 1..])
    ensures Compiled(s[i..], lit)
         == if end == |s| - (i + 1) || !Supported(s[i + 1..i + 1 + end]) then None
            else Joined(Flushed(lit) + [Op(s[i + 1..i + 1 + end])], Compiled(s[i + end + 2..], []))
  {
    hide Supported;
    var rest := s[i..];
    assert rest[1..] == s[i + 1..];
    if end < |s| - (i + 1) {
      assert rest[1..1 + end] == s[i + 1..i + 1 + end] && rest[end + 2..] == s[i + end + 2..];
    }
  }

  lemma ScanStart(s: string)
    ensures Compiled(s, []) == Joined([], Compiled(s[0..], []))
  {
    assert s[0..] == s;
    if Compiled(s, []).Some? {
      assert [] + Compiled(s, []).value == Compiled(s, []).value;
    }
  }

  lemma ScanEnd(s: string, lit: string)
    ensures Compiled(s[|s|..], lit) == Some(Flushed(lit))
  {
  }

  /** CompileOTLPTemplate. */
  method CompileTemplate(s: string) returns (r: Option<seq<Segment>>)
    ensures r == Compiled(s, [])
  {
    hide Compiled, Supported;
    var segs: seq<Segment> := [];
    var lit: string := [];
    var i := 0;
    ScanStart(s);
    while i < |s|
      invariant 0 <= i <= |s|
      invariant Compiled(s, []) == Joined(segs, Compiled(s[i..], lit))
      decreases |s| - i
    {
      if s[i] != '%' {
        ScanPlain(s, i, lit);
        lit := lit + [s[i]];
        i := i + 1;
        continue;
      }
      if i + 1 < |s| && s[i + 1] == '%' {
        ScanEscape(s, i, lit);
        lit := lit + "%";
        i := i + 2;
        continue;
      }
      var end := IndexPercent(s[i + 1..]);
      ScanOperator(s, i, lit, end);
      if end == |s| - (i + 1) {
        return None;
      }
      var token := s[i + 1..i + 1 + end];
      if !Supported(token) {
        return None;
      }
      JoinTwice(segs, Flushed(lit) + [Op(token)], Compiled(s[i + end + 2..], []));
      ghost var next := segs + (Flushed(lit) + [Op(token)]);
      if |lit| > 0 {
        segs := segs + [Lit(lit)];
        lit := [];
      }
      segs := segs + [Op(token)];
      i := i + 1 + end + 1;
      assert segs == next;
    }
    ScanEnd(s, lit);
    ghost var all := segs + Flushed(lit);
    if |lit| > 0 {
      segs := segs + [Lit(lit)];
    }
    assert segs == all;
    return Some(segs);
  }

  lemma JoinTwice(a: seq<Segment>, b: seq<Segment>, r: Option<seq<Segment>>)
    ensures Joined(a, Joined(b, r)) == Joined(a + b, r)
  {
    if r.Some? {
      assert a + (b + r.value) == a + b + r.value;
    }
  }

  /** evalString. */
  method EvalString(segs: seq<Segment>, rec: Record) returns (b: string)
    ensures b == Eval(segs, rec)
  {
    if |segs| == 1 && segs[0].Lit? {
      EvalOne(segs[0], rec);
      return segs[0].text;
    }
    b := [];
    for i := 0 to |segs|
      invariant Eval(segs, rec) == b + Eval(segs[i..], rec)
    {
      assert segs[i..][1..] == segs[i + 1..];
      b := b + EvalSegment(segs[i], rec);
    }
  }

  // ---------------------------------------------------------------------------
  // Value trees
  // ---------------------------------------------------------------------------

  /** An AnyValue; Absent is a nil pointer and Scalar every arm that is not supported. */
  datatype Any = Absent | Str(text: string) | KvList(pairs: seq<Pair>) | Array(elems: seq<Any>) | Scalar
  datatype Pair = Pair(key: string, value: Any)

  datatype Tree = NoTree | StrTree(segs: seq<Segment>) | KvTree(attrs: seq<Attr>) | ArrayTree(items: seq<Tree>)
  datatype Attr = Attr(key: string, value: Tree)

  /** Every leaf passes f and no scalar occurs. */
  predicate Acceptable(v: Any, f: string -> bool) {
    match v
    case Absent => true
    case Str(t) => f(t)
    case KvList(ps) => forall i :: 0 <= i < |ps| ==> Acceptable(ps[i].value, f)
    case Array(es) => forall i :: 0 <= i < |es| ==> Acceptable(es[i], f)
    case Scalar => false
  }

  predicate Compiles(t: string) { Compiled(t, []).Some? }

  /** The compiled tree of an acceptable value. */
  function TreeOf(v: Any): Tree
    requires Acceptable(v, Compiles)
  {
    match v
    case Absent => NoTree
    case Str(t) => StrTree(Compiled(t, []).value)
    case KvList(ps) => KvTree(seq(|ps|, i requires 0 <= i < |ps| => Attr(ps[i].key, TreeOf(ps[i].value))))
    case Array(es) => ArrayTree(seq(|es|, i requires 0 <= i < |es| => TreeOf(es[i])))
  }

  /** CompileOTLPValue accepts exactly the trees of strings, lists and arrays whose strings compile. */
  method CompileValue(v: Any) returns (t: Option<Tree>)
    ensures t.Some? <==> Acceptable(v, Compiles)
    ensures t.Some? ==> t.value == TreeOf(v)
    decreases v
  {
    match v
    case Absent => t := Some(NoTree);
    case Str(text) =>
      var segs := CompileTemplate(text);
      t := if segs.None? then None else Some(StrTree(segs.value));
    case KvList(ps) =>
      var attrs: seq<Attr> := [];
      for i := 0 to |ps|
        invariant |attrs| == i && forall j :: 0 <= j < i ==> Acceptable(ps[j].value, Compiles)
        invariant forall j :: 0 <= j < i ==> attrs[j] == Attr(ps[j].key, TreeOf(ps[j].value))
      {
        var child := CompileValue(ps[i].value);
        if child.None? {
          return None;
        }
        attrs := attrs + [Attr(ps[i].key, child.value)];
      }
      t := Some(KvTree(attrs));
    case Array(es) =>
      var items: seq<Tree> := [];
      for i := 0 to |es|
        invariant |items| == i && forall j :: 0 <= j < i ==> Acceptable(es[j], Compiles)
        invariant forall j :: 0 <= j < i ==> items[j] == TreeOf(es[j])
      {
        var child := CompileValue(es[i]);
        if child.None? {
          return None;
        }
        items := items + [child.value];
      }
      t := Some(ArrayTree(items));
    case Scalar => t := None;
  }

  /** ValidateOTLPValue: types only, a string leaf is never scanned. */
  method ValidateValue(v: Any) returns (ok: bool)
    ensures ok <==> Acceptable(v, _ => true)
    decreases v
  {
    match v
    case Absent => return true;
    case Str(_) => return true;
    case KvList(ps) =>
      for i := 0 to |ps|
        invariant forall j :: 0 <= j < i ==> Acceptable(ps[j].value, _ => true)
      {
        var child := ValidateValue(ps[i].value);
        if !child {
          return false;
        }
      }
      return true;
    case Array(es) =>
      for i := 0 to |es|
        invariant forall j :: 0 <= j < i ==> Acceptable(es[j], _ => true)
      {
        var child := ValidateValue(es[i]);
        if !child {
          return false;
        }
      }
      return true;
    case Scalar => return false;
  }

  /** Every compilable tree also validates. */
  lemma {:induction false} CompilableValidates(v: Any, f: string -> bool, g: string -> bool)
    requires Acceptable(v, f) && forall t :: f(t) ==> g(t)
    ensures Acceptable(v, g)
    decreases v
  {
    match v
    case KvList(ps) =>
      forall i | 0 <= i < |ps| ensures Acceptable(ps[i].value, g) {
        CompilableValidates(ps[i].value, f, g);
      }
    case Array(es) =>
      forall i | 0 <= i < |es| ensures Acceptable(es[i], g) {
        CompilableValidates(es[i], f, g);
      }
    case _ =>
  }

  /** OTLPValueTemplate.Eval. */
  function EvalTree(t: Tree, rec: Record): Any {
    match t
    case NoTree => Absent
    case StrTree(segs) => Str(Eval(segs, rec))
    case KvTree(as_) => KvList(seq(|as_|, i requires 0 <= i < |as_| => Pair(as_[i].key, EvalTree(as_[i].value, rec))))
    case ArrayTree(ts) => Array(seq(|ts|, i requires 0 <= i < |ts| => EvalTree(ts[i], rec)))
  }

  /** w is v with every string leaf substituted: same arms, same keys, same lengths and order. */
  predicate Substituted(v: Any, w: Any, rec: Record) {
    match v
    case Absent => w.Absent?
    case Str(t) => w.Str? && Subst(t, rec) == Some(w.text)
    case KvList(ps) => w.KvList? && |w.pairs| == |ps|
                       && forall i :: 0 <= i < |ps| ==> w.pairs[i].key == ps[i].key && Substituted(ps[i].value, w.pairs[i].value, rec)
    case Array(es) => w.Array? && |w.elems| == |es| && forall i :: 0 <= i < |es| ==> Substituted(es[i], w.elems[i], rec)
    case Scalar => false
  }

  /** Evaluating a compiled tree keeps its shape and substitutes its leaves. */
  lemma {:induction false} TreeMeaning(v: Any, rec: Record)
    requires Acceptable(v, Compiles)
    ensures Substituted(v, EvalTree(TreeOf(v), rec), rec)
    decreases v
  {
    match v
    case Absent =>
    case Str(t) => TemplateMeaning(t, rec);
    case KvList(ps) =>
      forall i | 0 <= i < |ps| ensures Substituted(ps[i].value, EvalTree(TreeOf(ps[i].value), rec), rec) {
        TreeMeaning(ps[i].value, rec);
      }
    case Array(es) =>
      forall i | 0 <= i < |es| ensures Substituted(es[i], EvalTree(TreeOf(es[i]), rec), rec) {
        TreeMeaning(es[i], rec);
      }
  }
}
