/** The two structural rewrites of the code modifier
    (src/code_modifier/safe_code_modifier.py, `_handle_add_timeout` and
    `_handle_enable_caching`), each as a specification function over the syntax tree
    and as the loop-driven method the source runs. */
module CodeTransforms {
  import opened Base
  import opened PyAst

  /** The function both rewrites look for. */
  const TargetFunctionName := "get_knowledge_context"

  /** `keyword(arg="timeout", value=Constant(15))`. */
  const TimeoutFifteen := Constant(IntLit(15))
  const TimeoutArg := "timeout"
  const TimeoutKeyword := Keyword(Some(TimeoutArg), TimeoutFifteen)

  /** The callee the timeout rewrite looks for: `requests.post`. */
  const RequestsModule := "requests"
  const PostAttr := "post"

  /** The decorator `enable_caching` inserts: `Name(id="cached")`. */
  const CachedDecorator := Name("cached")

  predicate IsTargetFunction(n: Node)
  {
    n.FunctionDef? && n.name == TargetFunctionName
  }

  /** A call `requests.post(...)`: the callee is the attribute `post` of the name `requests`. */
  predicate IsRequestsPost(n: Node)
  {
    n.Call? && n.func.Attribute? && n.func.value.Name? && n.func.value.id == RequestsModule && n.func.attr == PostAttr
  }

  predicate IsTimeoutKeyword(k: Node)
  {
    k.Keyword? && k.arg == Some(TimeoutArg)
  }

  /** Some node visited by `ast.walk(n)` is a `requests.post` call. */
  predicate HasPostCall(n: Node)
  {
    var w := Walk(n);
    exists k :: 0 <= k < |w| && IsRequestsPost(w[k].node)
  }

  /** What a search over a walk is looking for. */
  datatype Wanted =
    | TargetFunction          // `enable_caching`: the function itself
    | PostCall                // inside a function: a `requests.post` call
    | TargetWithPostCall      // `add_timeout`: a target function holding such a call

  predicate Matches(what: Wanted, n: Node)
  {
    match what
    case TargetFunction => IsTargetFunction(n)
    case PostCall => IsRequestsPost(n)
    case TargetWithPostCall => IsTargetFunction(n) && HasPostCall(n)
  }

  /** The position of the first entry of a walk that matches, as a `for` loop with `break` finds it. */
  function FirstEntry(es: seq<Entry>, what: Wanted): (r: Option<nat>)
    ensures r.Some? ==> r.value < |es| && Matches(what, es[r.value].node)
    ensures r.Some? ==> forall j :: 0 <= j < r.value ==> !Matches(what, es[j].node)
    ensures r.None? <==> forall j :: 0 <= j < |es| ==> !Matches(what, es[j].node)
  {
    if es == [] then None
    else if Matches(what, es[0].node) then Some(0)
    else
      match FirstEntry(es[1..], what)
      case None => None
      case Some(i) => Some(i + 1)
  }

  /** The position of the first `timeout` keyword of a call. */
  function FirstTimeout(kws: seq<Node>): (r: Option<nat>)
    ensures r.Some? ==> r.value < |kws| && IsTimeoutKeyword(kws[r.value])
    ensures r.Some? ==> forall j :: 0 <= j < r.value ==> !IsTimeoutKeyword(kws[j])
    ensures r.None? <==> forall j :: 0 <= j < |kws| ==> !IsTimeoutKeyword(kws[j])
  {
    if kws == [] then None
    else if IsTimeoutKeyword(kws[0]) then Some(0)
    else
      match FirstTimeout(kws[1..])
      case None => None
      case Some(i) => Some(i + 1)
  }

  // ---------------------------------------------------------------------------
  // add_timeout

  /** The keyword list after `add_timeout`: the first `timeout` keyword gets the value 15,
      or, when there is none, `timeout=15` is appended. */
  function WithTimeout(kws: seq<Node>): seq<Node>
  {
    match FirstTimeout(kws)
    case Some(i) => kws[i := Keyword(kws[i].arg, TimeoutFifteen)]
    case None => kws + [TimeoutKeyword]
  }

  /** Where `add_timeout` edits: the first target function (in `ast.walk` order) holding a
      `requests.post` call, and the first such call in the walk of that function. */
  datatype Site = Site(target: Entry, call: Entry)

  function TimeoutSite(t: Node): (s: Option<Site>)
    ensures s.Some? ==> Located(t, s.value.target) && IsTargetFunction(s.value.target.node)
    ensures s.Some? ==> Located(s.value.target.node, s.value.call) && IsRequestsPost(s.value.call.node)
  {
    var w := Walk(t);
    match FirstEntry(w, TargetWithPostCall)
    case None => None
    case Some(i) =>
      var inner := Walk(w[i].node);
      match FirstEntry(inner, PostCall)
      case None => None
      case Some(k) =>
        WalkLocated(t);
        WalkLocated(w[i].node);
        assert w[i] in w && inner[k] in inner;
        Some(Site(w[i], inner[k]))
  }

  /** The path of the edited call from the root of the tree. */
  function SitePath(t: Node, s: Site): (p: Path)
    requires Located(t, s.target) && Located(s.target.node, s.call)
    ensures ValidPath(t, p) && At(t, p) == s.call.node
  {
    AtConcat(t, s.target.path, s.call.path);
    s.target.path + s.call.path
  }

  /** `_handle_add_timeout` on a parsed module; `None` when no call was found. */
  function AddTimeout(t: Node): Option<Node>
  {
    match TimeoutSite(t)
    case None => None
    case Some(s) =>
      var call := s.call.node;
      Some(ReplaceAt(t, SitePath(t, s), call.(keywords := WithTimeout(call.keywords))))
  }

  /** The keyword loop of `_handle_add_timeout`: update the first `timeout` keyword in
      place and stop, or append one when the loop found none. */
  method UpdateOrAppendTimeout(kws: seq<Node>) returns (r: seq<Node>)
    ensures r == WithTimeout(kws)
  {
    var timeoutExists := false;
    r := kws;
    var i := 0;
    while i < |kws|
      invariant 0 <= i <= |kws|
      invariant r == kws
      invariant forall j :: 0 <= j < i ==> !IsTimeoutKeyword(kws[j])
    {
      if IsTimeoutKeyword(kws[i]) {
        r := kws[i := Keyword(kws[i].arg, TimeoutFifteen)];
        timeoutExists := true;
        break;
      }
      i := i + 1;
    }
    if !timeoutExists {
      r := kws + [TimeoutKeyword];
    }
  }

  /** The inner walk of `_handle_add_timeout`: the position of the first `requests.post`
      call in the walk of a function, as the loop with `break` finds it. */
  method FindPostCall(f: Node) returns (k: Option<nat>)
    ensures k == FirstEntry(Walk(f), PostCall)
  {
    var inner := Walk(f);
    var j := 0;
    while j < |inner|
      invariant 0 <= j <= |inner|
      invariant forall m :: 0 <= m < j ==> !IsRequestsPost(inner[m].node)
    {
      if IsRequestsPost(inner[j].node) {
        return Some(j);
      }
      j := j + 1;
    }
    return None;
  }

  /** The first target function holding a call, and the first call in it, make the site. */
  lemma TimeoutSiteAt(t: Node, i: nat, k: nat)
    requires i < |Walk(t)| && Matches(TargetWithPostCall, Walk(t)[i].node)
    requires forall j :: 0 <= j < i ==> !Matches(TargetWithPostCall, Walk(t)[j].node)
    requires FirstEntry(Walk(Walk(t)[i].node), PostCall) == Some(k)
    ensures k < |Walk(Walk(t)[i].node)|
    ensures TimeoutSite(t) == Some(Site(Walk(t)[i], Walk(Walk(t)[i].node)[k]))
  {
    assert FirstEntry(Walk(t), TargetWithPostCall) == Some(i);
  }

  lemma AddTimeoutAt(t: Node, i: nat, k: nat)
    requires i < |Walk(t)| && Matches(TargetWithPostCall, Walk(t)[i].node)
    requires forall j :: 0 <= j < i ==> !Matches(TargetWithPostCall, Walk(t)[j].node)
    requires FirstEntry(Walk(Walk(t)[i].node), PostCall) == Some(k)
    ensures k < |Walk(Walk(t)[i].node)|
    ensures var f := Walk(t)[i];
      var c := Walk(f.node)[k];
      TimeoutSite(t) == Some(Site(f, c))
      && AddTimeout(t) == Some(ReplaceAt(t, SitePath(t, Site(f, c)), c.node.(keywords := WithTimeout(c.node.keywords))))
  {
    TimeoutSiteAt(t, i, k);
  }

  /** `_handle_add_timeout`: two nested walks, left through `break` as soon as one call
      has been changed. */
  method HandleAddTimeout(t: Node) returns (r: Option<Node>)
    ensures r == AddTimeout(t)
  {
    var walk := Walk(t);
    var i := 0;
    while i < |walk|
      invariant 0 <= i <= |walk|
      invariant forall j :: 0 <= j < i ==> !Matches(TargetWithPostCall, walk[j].node)
    {
      var f := walk[i];
      if IsTargetFunction(f.node) {
        var k := FindPostCall(f.node);
        if k.Some? {
          var c := Walk(f.node)[k.value];
          var kws := UpdateOrAppendTimeout(c.node.keywords);
          AddTimeoutAt(t, i, k.value);
          return Some(ReplaceAt(t, SitePath(t, Site(f, c)), c.node.(keywords := kws)));
        }
      }
      i := i + 1;
    }
    assert FirstEntry(walk, TargetWithPostCall).None?;
    return None;
  }

  /** The keyword edit: with a `timeout` keyword present, exactly its first occurrence
      gets the value 15 and every other keyword keeps its place and value; without one,
      `timeout=15` is appended after all existing keywords. */
  lemma WithTimeoutEdits(kws: seq<Node>)
    ensures FirstTimeout(kws).Some? ==>
      var i := FirstTimeout(kws).value;
      |WithTimeout(kws)| == |kws| && WithTimeout(kws)[i] == TimeoutKeyword
      && forall j :: 0 <= j < |kws| && j != i ==> WithTimeout(kws)[j] == kws[j]
    ensures FirstTimeout(kws).None? ==>
      WithTimeout(kws) == kws + [TimeoutKeyword]
  {
  }

  /** Afterwards the first `timeout` keyword carries 15, so a second run changes nothing. */
  lemma WithTimeoutIdempotent(kws: seq<Node>)
    ensures FirstTimeout(WithTimeout(kws)).Some?
    ensures WithTimeout(kws)[FirstTimeout(WithTimeout(kws)).value] == TimeoutKeyword
    ensures WithTimeout(WithTimeout(kws)) == WithTimeout(kws)
  {
    var once := WithTimeout(kws);
    match FirstTimeout(kws)
    case Some(i) =>
      assert once[i] == TimeoutKeyword;
      assert forall j :: 0 <= j < i ==> once[j] == kws[j];
      assert FirstTimeout(once) == Some(i);
    case None =>
      assert once[|kws|] == TimeoutKeyword;
      assert forall j :: 0 <= j < |kws| ==> once[j] == kws[j];
      assert FirstTimeout(once) == Some(|kws|);
  }

  /** A `requests.post` call at path `q` inside a function named `get_knowledge_context`
      at path `p` of the module. */
  predicate PostInTarget(t: Node, p: Path, q: Path)
  {
    ValidPath(t, p) && IsTargetFunction(At(t, p)) && ValidPath(At(t, p), q) && IsRequestsPost(At(At(t, p), q))
  }

  /** Wherever such a call sits, the walks reach it, so `add_timeout` finds a site. */
  lemma CandidateIsFound(t: Node, p: Path, q: Path)
    requires PostInTarget(t, p, q)
    ensures TimeoutSite(t).Some?
  {
    var w := Walk(t);
    var f := At(t, p);
    WalkComplete(t, p);
    WalkComplete(f, q);
    var i :| 0 <= i < |w| && w[i] == Entry(p, f);
    var inner := Walk(f);
    var k :| 0 <= k < |inner| && inner[k] == Entry(q, At(f, q));
    assert IsRequestsPost(inner[k].node);
    assert Matches(TargetWithPostCall, w[i].node);
    var j := FirstEntry(w, TargetWithPostCall).value;
    var found := Walk(w[j].node);
    assert HasPostCall(w[j].node);
    var m :| 0 <= m < |found| && IsRequestsPost(found[m].node);
    assert Matches(PostCall, found[m].node);
    TimeoutSiteAt(t, j, FirstEntry(found, PostCall).value);
  }

  /** `add_timeout` fails exactly when no function named `get_knowledge_context` anywhere in
      the module contains a `requests.post` call anywhere inside it. */
  lemma AddTimeoutFailsIff(t: Node)
    ensures AddTimeout(t).None? <==> forall p, q :: !PostInTarget(t, p, q)
  {
    if AddTimeout(t).None? {
      forall p, q | PostInTarget(t, p, q)
        ensures false
      {
        CandidateIsFound(t, p, q);
      }
    } else {
      var s := TimeoutSite(t).value;
      assert PostInTarget(t, s.target.path, s.call.path);
    }
  }

  /** The site `add_timeout` picks is the first in walk order: no earlier function of the
      module's walk is a target holding a `requests.post` call, and no earlier node of the
      chosen function's walk is such a call. */
  lemma TimeoutSiteIsFirst(t: Node)
    requires TimeoutSite(t).Some?
    ensures var s := TimeoutSite(t).value;
      var w := Walk(t);
      exists i :: 0 <= i < |w| && w[i] == s.target
        && forall j :: 0 <= j < i ==> !(IsTargetFunction(w[j].node) && HasPostCall(w[j].node))
    ensures var s := TimeoutSite(t).value;
      var inner := Walk(s.target.node);
      exists k :: 0 <= k < |inner| && inner[k] == s.call
        && forall j :: 0 <= j < k ==> !IsRequestsPost(inner[j].node)
  {
    var w := Walk(t);
    var i := FirstEntry(w, TargetWithPostCall).value;
    var inner := Walk(w[i].node);
    var k := FirstEntry(inner, PostCall).value;
    TimeoutSiteAt(t, i, k);
    var s := TimeoutSite(t).value;
    assert w[i] == s.target && inner[k] == s.call;
    forall j | 0 <= j < i
      ensures !(IsTargetFunction(w[j].node) && HasPostCall(w[j].node))
    {
      assert !Matches(TargetWithPostCall, w[j].node);
    }
    forall j | 0 <= j < k
      ensures !IsRequestsPost(inner[j].node)
    {
      assert !Matches(PostCall, inner[j].node);
    }
  }

  /** What `add_timeout` changes: the chosen call keeps its callee and positional arguments
      and gets the edited keyword list; every node apart from it keeps its whole subtree;
      every node above it keeps its own kind and fields. */
  lemma AddTimeoutChangesOnlyTheCall(t: Node, t': Node)
    requires AddTimeout(t) == Some(t')
    ensures var p := SitePath(t, TimeoutSite(t).value);
      ValidPath(t', p) && At(t', p).Call?
      && At(t', p).func == At(t, p).func && At(t', p).args == At(t, p).args
      && At(t', p).keywords == WithTimeout(At(t, p).keywords)
    ensures var p := SitePath(t, TimeoutSite(t).value);
      forall q :: ValidPath(t, q) && Apart(p, q) ==> ValidPath(t', q) && At(t', q) == At(t, q)
    ensures var p := SitePath(t, TimeoutSite(t).value);
      forall q :: q < p ==> ValidPath(t, q) && ValidPath(t', q) && HeadOf(At(t', q)) == HeadOf(At(t, q))
  {
    var s := TimeoutSite(t).value;
    var call := s.call.node;
    ReplaceAtFrame(t, SitePath(t, s), call.(keywords := WithTimeout(call.keywords)));
  }

  // ---------------------------------------------------------------------------
  // enable_caching

  /** The first function named `get_knowledge_context` in `ast.walk` order. */
  function CachingSite(t: Node): (e: Option<Entry>)
    ensures e.Some? ==> Located(t, e.value) && IsTargetFunction(e.value.node)
  {
    var w := Walk(t);
    match FirstEntry(w, TargetFunction)
    case None => None
    case Some(i) =>
      WalkLocated(t);
      assert w[i] in w;
      Some(w[i])
  }

  /** `_handle_enable_caching` on a parsed module; `None` when there is no such function. */
  function EnableCaching(t: Node): Option<Node>
  {
    match CachingSite(t)
    case None => None
    case Some(e) =>
      Some(ReplaceAt(t, e.path, e.node.(decorators := [CachedDecorator] + e.node.decorators)))
  }

  /** `_handle_enable_caching`: a walk left through `break` at the first target function,
      whose decorator list gets `cached` inserted at index 0. */
  method HandleEnableCaching(t: Node) returns (r: Option<Node>)
    ensures r == EnableCaching(t)
  {
    var walk := Walk(t);
    var i := 0;
    while i < |walk|
      invariant 0 <= i <= |walk|
      invariant forall j :: 0 <= j < i ==> !IsTargetFunction(walk[j].node)
    {
      var node := walk[i];
      if IsTargetFunction(node.node) {
        EnableCachingAt(t, i);
        return Some(ReplaceAt(t, node.path, node.node.(decorators := [CachedDecorator] + node.node.decorators)));
      }
      i := i + 1;
    }
    assert FirstEntry(walk, TargetFunction).None?;
    return None;
  }

  /** The first target function of the walk is the one decorated. */
  lemma EnableCachingAt(t: Node, i: nat)
    requires i < |Walk(t)| && IsTargetFunction(Walk(t)[i].node)
    requires forall j :: 0 <= j < i ==> !IsTargetFunction(Walk(t)[j].node)
    ensures var e := Walk(t)[i];
      CachingSite(t) == Some(e)
      && EnableCaching(t) == Some(ReplaceAt(t, e.path, e.node.(decorators := [CachedDecorator] + e.node.decorators)))
  {
    assert FirstEntry(Walk(t), TargetFunction) == Some(i);
  }

  /** A function named `get_knowledge_context` at path `p` of the module. */
  predicate TargetAt(t: Node, p: Path)
  {
    ValidPath(t, p) && IsTargetFunction(At(t, p))
  }

  /** Wherever such a function sits, the walk reaches it, so `enable_caching` finds a site. */
  lemma TargetIsFound(t: Node, p: Path)
    requires TargetAt(t, p)
    ensures CachingSite(t).Some?
  {
    var w := Walk(t);
    WalkComplete(t, p);
    var i :| 0 <= i < |w| && w[i] == Entry(p, At(t, p));
    assert Matches(TargetFunction, w[i].node);
  }

  /** `enable_caching` fails exactly when the module has no function named
      `get_knowledge_context` anywhere. */
  lemma EnableCachingFailsIff(t: Node)
    ensures EnableCaching(t).None? <==> forall p :: !TargetAt(t, p)
  {
    if EnableCaching(t).None? {
      forall p | TargetAt(t, p)
        ensures false
      {
        TargetIsFound(t, p);
      }
    } else {
      var e := CachingSite(t).value;
      assert TargetAt(t, e.path);
    }
  }

  /** What `enable_caching` changes: the chosen function's decorator list grows by exactly
      one, `cached` comes first and the old decorators follow in their old order; its name,
      arguments, body and return annotation stay; every node apart from it keeps its whole
      subtree; every node above it keeps its own kind and fields. */
  lemma EnableCachingDecoratesOnce(t: Node, t': Node)
    requires EnableCaching(t) == Some(t')
    ensures var e := CachingSite(t).value;
      ValidPath(t', e.path) && At(t', e.path).FunctionDef?
      && |At(t', e.path).decorators| == |e.node.decorators| + 1
      && At(t', e.path).decorators[0] == CachedDecorator
      && At(t', e.path).decorators[1..] == e.node.decorators
      && At(t', e.path).name == e.node.name
      && At(t', e.path).arguments == e.node.arguments
      && At(t', e.path).body == e.node.body
      && At(t', e.path).annotation == e.node.annotation
    ensures var e := CachingSite(t).value;
      forall q :: ValidPath(t, q) && Apart(e.path, q) ==> ValidPath(t', q) && At(t', q) == At(t, q)
    ensures var e := CachingSite(t).value;
      forall q :: q < e.path ==> ValidPath(t, q) && ValidPath(t', q) && HeadOf(At(t', q)) == HeadOf(At(t, q))
  {
    var e := CachingSite(t).value;
    var x := e.node.(decorators := [CachedDecorator] + e.node.decorators);
    ReplaceAtFrame(t, e.path, x);
    assert x.decorators[1..] == e.node.decorators;
  }
}
