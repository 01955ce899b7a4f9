/** The generator proper: from the router's registry to the emitted text.
    The router is given already resolved: each registry entry carries the
    view set's name, its basename and its routes, each route with its URL
    name (basename substituted), its lookup names and its ordered
    HTTP-method-to-action map. */
module ViewSet {
  import opened Wrappers
  import opened Strings
  import opened Sequences
  import opened Constants
  import opened BaseClass
  import opened Fragments

  /** `ViewSetURLData`; also the shape in which the router's routes come in. */
  datatype Route = Route(name: string, lookups: seq<string>, methodMap: seq<(string, string)>)

  /** One entry of `router.registry`, with the router's route resolution
      already applied. */
  datatype RegistryEntry = RegistryEntry(viewset: string, basename: string, routes: seq<Route>)

  /** `ViewSetData`. */
  datatype ViewSetData = ViewSetData(name: string, basename: string, urls: seq<Route>)

  /** A generator: the shared configuration and the dialect. */
  datatype Generator = Generator(
    namespace: Option<string>, outputFile: Option<string>, selectedViewsets: Option<seq<string>>, dialect: Dialect)

  /** What `run` does: print a text to standard output, append a text to the
      output file, or stop with the `KeyError` of a method the status policy
      does not know. */
  datatype Outcome = Printed(text: string) | Appended(file: string, text: string) | KeyError

  /** One generated test: a URL together with one entry of its method map. */
  datatype Case = Case(url: Route, httpMethod: string, action: string)

  const NoTestsGenerated := "No tests generated.\n"

  // ------------------------------------------------------- ViewSetData

  /** A route becomes a URL only when some HTTP method is bound to it. */
  predicate HasMethods(r: Route)
  {
    |r.methodMap| > 0
  }

  /** `ViewSetData(router, prefix, viewset, basename)`. */
  function MakeViewSetData(e: RegistryEntry): ViewSetData
  {
    ViewSetData(e.viewset, e.basename, Filter(e.routes, HasMethods))
  }

  /** `ViewSetData.__init__`: the loop over the router's routes. */
  method NewViewSetData(e: RegistryEntry) returns (v: ViewSetData)
    ensures v == MakeViewSetData(e)
  {
    var urls := [];
    var i := 0;
    while i < |e.routes|
      invariant 0 <= i <= |e.routes|
      invariant urls == Filter(e.routes[..i], HasMethods)
    {
      assert e.routes[..i + 1][..i] == e.routes[..i];
      if HasMethods(e.routes[i]) {
        urls := urls + [e.routes[i]];
      }
      i := i + 1;
    }
    assert e.routes[..i] == e.routes;
    v := ViewSetData(e.viewset, e.basename, urls);
  }

  /** The URLs of a view set are its routes that have methods, in route
      order; no route with methods is dropped, so a view set has no URL
      exactly when none of its routes has a method. */
  lemma ViewSetUrls(e: RegistryEntry)
    ensures var urls := MakeViewSetData(e).urls;
      && (forall u :: u in urls ==> u in e.routes && HasMethods(u))
      && (forall i :: 0 <= i < |e.routes| && HasMethods(e.routes[i]) ==> e.routes[i] in urls)
      && (urls == [] <==> forall i :: 0 <= i < |e.routes| ==> !HasMethods(e.routes[i]))
  {
    var urls := MakeViewSetData(e).urls;
    forall i | 0 <= i < |e.routes| && HasMethods(e.routes[i]) ensures e.routes[i] in urls {
      assert e.routes[i] in e.routes;
    }
    if urls != [] {
      assert urls[0] in e.routes && HasMethods(urls[0]);
      var i :| 0 <= i < |e.routes| && e.routes[i] == urls[0];
    }
  }

  // --------------------------------------------------------- selection

  /** A None or empty selection list selects every view set. */
  predicate IsSelected(selected: Option<seq<string>>, name: string)
  {
    selected.None? || selected.value == [] || name in selected.value
  }

  predicate Keep(selected: Option<seq<string>>, v: ViewSetData)
  {
    IsSelected(selected, v.name) && |v.urls| > 0
  }

  function Keeper(selected: Option<seq<string>>): ViewSetData -> bool
  {
    v => Keep(selected, v)
  }

  function AllViewSetData(registry: seq<RegistryEntry>): (r: seq<ViewSetData>)
    ensures |r| == |registry|
    ensures forall i :: 0 <= i < |registry| ==> r[i] == MakeViewSetData(registry[i])
  {
    seq(|registry|, i requires 0 <= i < |registry| => MakeViewSetData(registry[i]))
  }

  /** What `generate_viewset_data_from_router` returns. */
  function SelectedData(selected: Option<seq<string>>, registry: seq<RegistryEntry>): seq<ViewSetData>
  {
    Filter(AllViewSetData(registry), Keeper(selected))
  }

  /** One more registry entry: its view set is appended when it is kept. */
  lemma SelectedSnoc(selected: Option<seq<string>>, registry: seq<RegistryEntry>, i: nat)
    requires i < |registry|
    ensures SelectedData(selected, registry[..i + 1]) ==
      SelectedData(selected, registry[..i]) +
        if Keep(selected, MakeViewSetData(registry[i])) then [MakeViewSetData(registry[i])] else []
  {
    var all := AllViewSetData(registry[..i + 1]);
    assert all[..i] == AllViewSetData(registry[..i]);
    assert all[i] == MakeViewSetData(registry[i]);
  }

  /** `generate_viewset_data_from_router`: the loop over the registry. */
  method GenerateViewSetDataFromRouter(g: Generator, registry: seq<RegistryEntry>)
    returns (data: seq<ViewSetData>)
    ensures data == SelectedData(g.selectedViewsets, registry)
  {
    data := [];
    var i := 0;
    while i < |registry|
      invariant 0 <= i <= |registry|
      invariant data == SelectedData(g.selectedViewsets, registry[..i])
    {
      SelectedSnoc(g.selectedViewsets, registry, i);
      var entry := registry[i];
      if g.selectedViewsets.Some? && g.selectedViewsets.value != [] && entry.viewset !in g.selectedViewsets.value {
        assert !IsSelected(g.selectedViewsets, MakeViewSetData(entry).name);
        assert data + [] == data;
        i := i + 1;
        continue;
      }
      var viewsetData := NewViewSetData(entry);
      assert IsSelected(g.selectedViewsets, viewsetData.name);
      if viewsetData.urls != [] {
        data := data + [viewsetData];
      } else {
        assert data + [] == data;
      }
      i := i + 1;
    }
    assert registry[..i] == registry;
  }

  /** Selection keeps registry order (the k-th kept view set comes from the
      k-th of a strictly increasing list of registry positions), keeps only
      selected view sets that have URLs, and drops none of those. */
  lemma SelectionKeepsRegistryOrder(selected: Option<seq<string>>, registry: seq<RegistryEntry>)
    ensures var data := SelectedData(selected, registry);
      var idx := FilterIndices(AllViewSetData(registry), Keeper(selected));
      && |idx| == |data|
      && (forall k :: 0 <= k < |idx| ==> idx[k] < |registry| && data[k] == MakeViewSetData(registry[idx[k]]))
      && (forall k, l :: 0 <= k < l < |idx| ==> idx[k] < idx[l])
      && (forall i :: 0 <= i < |registry| ==>
            (i in idx <==> IsSelected(selected, registry[i].viewset) && MakeViewSetData(registry[i]).urls != []))
  {
    var all := AllViewSetData(registry);
    FilterIndicesIncreasing(all, Keeper(selected));
    FilterPicksIndices(all, Keeper(selected));
    FilterIndicesComplete(all, Keeper(selected));
  }

  /** Every kept view set is selected and has URLs. */
  lemma SelectedAreNonEmpty(selected: Option<seq<string>>, registry: seq<RegistryEntry>)
    ensures forall v :: v in SelectedData(selected, registry) ==>
      IsSelected(selected, v.name) && v.urls != [] && forall u :: u in v.urls ==> HasMethods(u)
  {
    forall v | v in SelectedData(selected, registry)
      ensures IsSelected(selected, v.name) && v.urls != [] && forall u :: u in v.urls ==> HasMethods(u)
    {
      assert Keeper(selected)(v);
      var i :| 0 <= i < |registry| && AllViewSetData(registry)[i] == v;
      ViewSetUrls(registry[i]);
    }
  }

  // -------------------------------------------------------------- cases

  /** One case per entry of a URL's method map, in map order. */
  function CasesOf(u: Route): (r: seq<Case>)
    ensures |r| == |u.methodMap|
    ensures forall j :: 0 <= j < |u.methodMap| ==> r[j] == Case(u, u.methodMap[j].0, u.methodMap[j].1)
  {
    seq(|u.methodMap|, j requires 0 <= j < |u.methodMap| => Case(u, u.methodMap[j].0, u.methodMap[j].1))
  }

  /** The tests of a view set: URL order, then method-map order. */
  function Cases(urls: seq<Route>): seq<Case>
  {
    if urls == [] then [] else Cases(urls[..|urls| - 1]) + CasesOf(urls[|urls| - 1])
  }

  /** Number of (URL, method) pairs. */
  function PairCount(urls: seq<Route>): nat
  {
    if urls == [] then 0 else PairCount(urls[..|urls| - 1]) + |urls[|urls| - 1].methodMap|
  }

  lemma {:induction false} CasesAppend(a: seq<Route>, b: seq<Route>)
    ensures Cases(a + b) == Cases(a) + Cases(b)
    decreases |b|
  {
    if b != [] {
      var init := b[..|b| - 1];
      assert (a + b)[..|a + b| - 1] == a + init;
      CasesAppend(a, init);
    } else {
      assert a + b == a;
    }
  }

  /** The case of the `j`-th method of the `i`-th URL. */
  function PairCase(urls: seq<Route>, i: nat, j: nat): Case
    requires i < |urls| && j < |urls[i].methodMap|
  {
    Case(urls[i], urls[i].methodMap[j].0, urls[i].methodMap[j].1)
  }

  /** One case per (URL, method) pair. */
  lemma {:induction false} CasesCount(urls: seq<Route>)
    ensures |Cases(urls)| == PairCount(urls)
  {
    if urls != [] {
      CasesCount(urls[..|urls| - 1]);
    }
  }

  /** Every (URL, method) pair has its case. */
  lemma {:induction false} PairInCases(urls: seq<Route>, i: nat, j: nat)
    requires i < |urls| && j < |urls[i].methodMap|
    ensures PairCase(urls, i, j) in Cases(urls)
  {
    var n := |urls| - 1;
    if i < n {
      PairInCases(urls[..n], i, j);
      assert PairCase(urls[..n], i, j) == PairCase(urls, i, j);
    } else {
      assert CasesOf(urls[n])[j] == PairCase(urls, i, j);
    }
  }

  /** Every case is the case of some (URL, method) pair. */
  lemma {:induction false} CaseIsPair(urls: seq<Route>, c: Case)
    requires c in Cases(urls)
    ensures exists i, j :: 0 <= i < |urls| && 0 <= j < |urls[i].methodMap| && c == PairCase(urls, i, j)
  {
    var n := |urls| - 1;
    var init := urls[..n];
    if c in Cases(init) {
      CaseIsPair(init, c);
      var i, j :| 0 <= i < |init| && 0 <= j < |init[i].methodMap| && c == PairCase(init, i, j);
      assert PairCase(init, i, j) == PairCase(urls, i, j);
    } else {
      assert c in CasesOf(urls[n]);
      var j :| 0 <= j < |urls[n].methodMap| && CasesOf(urls[n])[j] == c;
      assert c == PairCase(urls, n, j);
    }
  }

  /** There is exactly one case per (URL, method) pair, and the cases are
      precisely the pairs of the view set's URLs. */
  lemma CasesArePairs(urls: seq<Route>)
    ensures |Cases(urls)| == PairCount(urls)
    ensures forall c :: c in Cases(urls) <==>
      exists i, j :: 0 <= i < |urls| && 0 <= j < |urls[i].methodMap| && c == PairCase(urls, i, j)
  {
    CasesCount(urls);
    forall c ensures c in Cases(urls) <==>
      exists i, j :: 0 <= i < |urls| && 0 <= j < |urls[i].methodMap| && c == PairCase(urls, i, j)
    {
      if c in Cases(urls) {
        CaseIsPair(urls, c);
      }
      if exists i, j :: 0 <= i < |urls| && 0 <= j < |urls[i].methodMap| && c == PairCase(urls, i, j) {
        var i, j :| 0 <= i < |urls| && 0 <= j < |urls[i].methodMap| && c == PairCase(urls, i, j);
        PairInCases(urls, i, j);
      }
    }
  }

  // -------------------------------------------------------- test method

  /** The dedented template of `build_test_method`, before the pytest
      override puts the marker block in front. */
  function Template(name: string, args: string, reverse: string, request: string, assertion: string): string
  {
    ("def " + name + "(" + args + "):") + "\n" +
    ("    url = " + reverse) + "\n" +
    ("    response = " + request) + "\n" +
    ("    " + assertion) + "\n"
  }

  /** The template holds four lines when its pieces hold no newline: the
      `def` line, then the three body lines indented by four spaces. */
  lemma TemplateLines(name: string, args: string, reverse: string, request: string, assertion: string)
    requires '\n' !in name && '\n' !in args && '\n' !in reverse && '\n' !in request && '\n' !in assertion
    ensures Split(Template(name, args, reverse, request, assertion), '\n') == [
      "def " + name + "(" + args + "):", "    url = " + reverse, "    response = " + request, "    " + assertion, ""]
  {
    assert '\n' !in "def " + name + "(" + args + "):";
    assert '\n' !in "    url = " + reverse;
    assert '\n' !in "    response = " + request;
    assert '\n' !in "    " + assertion;
    SplitFourLines("def " + name + "(" + args + "):", "    url = " + reverse, "    response = " + request, "    " + assertion);
  }

  /** The template filled in for one case. */
  function TestBody(g: Generator, basename: string, c: Case, assertion: string): string
  {
    Template(TestMethodName(basename, c.action, c.httpMethod), MethodArgs(g.dialect),
      Reverse(g.namespace, c.url.name, c.url.lookups), Request(g.dialect, c.httpMethod), assertion)
  }

  /** `build_test_method` in either dialect; `None` is the `KeyError` of an
      unknown method. */
  function TestMethod(g: Generator, basename: string, c: Case): (r: Option<string>)
    ensures r.Some? <==> c.httpMethod in HttpMethods
  {
    match AssertStatement(g.dialect, c.httpMethod)
    case None => None
    case Some(assertion) =>
      var body := TestBody(g, basename, c, assertion);
      match g.dialect
      case UnitTest(_) => Some(body)
      case PyTest(markers, _) => Some("\n" + Markers(markers) + "\n" + body)
  }

  method BuildTestMethod(g: Generator, url: Route, basename: string, httpMethod: string, action: string)
    returns (r: Option<string>)
    ensures r == TestMethod(g, basename, Case(url, httpMethod, action))
  {
    var name := TestMethodName(basename, action, httpMethod);
    var args := BuildTestMethodArgs(g.dialect);
    var reverse := Reverse(g.namespace, url.name, url.lookups);
    var request := Request(g.dialect, httpMethod);
    var assertion := AssertStatement(g.dialect, httpMethod);
    if assertion.None? {
      return None;
    }
    var body := Template(name, args, reverse, request, assertion.value);
    match g.dialect
    case UnitTest(_) =>
      r := Some(body);
    case PyTest(markers, _) =>
      var decorators := BuildTestMarkers(markers);
      r := Some("\n" + decorators + "\n" + body);
  }

  /** A generated test is exactly four lines: the `def` line with the test's
      name and arguments, the `reverse` line, the request line and the status
      assertion for the method, each body line indented by four spaces. */
  lemma TestBodyLines(g: Generator, basename: string, c: Case, assertion: string)
    requires AssertStatement(g.dialect, c.httpMethod) == Some(assertion)
    requires '\n' !in TestMethodName(basename, c.action, c.httpMethod) + MethodArgs(g.dialect)
    requires '\n' !in Reverse(g.namespace, c.url.name, c.url.lookups)
    requires '\n' !in c.httpMethod
    ensures Split(TestBody(g, basename, c, assertion), '\n') == [
      "def " + TestMethodName(basename, c.action, c.httpMethod) + "(" + MethodArgs(g.dialect) + "):",
      "    url = " + Reverse(g.namespace, c.url.name, c.url.lookups),
      "    response = " + Request(g.dialect, c.httpMethod),
      "    " + assertion,
      ""]
  {
    var name, args := TestMethodName(basename, c.action, c.httpMethod), MethodArgs(g.dialect);
    assert '\n' !in name && '\n' !in args;
    TemplateLines(name, args, Reverse(g.namespace, c.url.name, c.url.lookups), Request(g.dialect, c.httpMethod), assertion);
  }

  // ------------------------------------------------- tests of a view set

  /** `build_test_method` as a function of the case. */
  function Render(g: Generator, basename: string): Case -> Option<string>
  {
    c => TestMethod(g, basename, c)
  }

  /** The base `generate_tests_for_viewset`: `"\n" + test` for every case,
      in order; `None` when one case raises `KeyError`. */
  function Body(g: Generator, basename: string, cases: seq<Case>): Option<string>
  {
    match MapAll(Render(g, basename), cases)
    case None => None
    case Some(tests) => Some(PrefixEach("\n", tests))
  }

  /** The tests of a set of cases: each case's test, in case order. */
  function Tests(g: Generator, basename: string, cases: seq<Case>): (r: seq<string>)
    requires forall k :: 0 <= k < |cases| ==> cases[k].httpMethod in HttpMethods
    ensures |r| == |cases|
    ensures forall k :: 0 <= k < |cases| ==> r[k] == TestMethod(g, basename, cases[k]).value
  {
    seq(|cases|, k requires 0 <= k < |cases| => TestMethod(g, basename, cases[k]).value)
  }

  /** The body raises `KeyError` exactly when some case's method is unknown
      to the policy; otherwise it is one test per case, in case order, each
      preceded by a newline. */
  lemma BodyIsOneTestPerCase(g: Generator, basename: string, cases: seq<Case>)
    ensures Body(g, basename, cases).Some? <==> forall k :: 0 <= k < |cases| ==> cases[k].httpMethod in HttpMethods
    ensures Body(g, basename, cases).Some? ==>
      Body(g, basename, cases).value == PrefixEach("\n", Tests(g, basename, cases))
  {
    var render := Render(g, basename);
    MapAllSpec(render, cases);
    assert forall k :: 0 <= k < |cases| ==> render(cases[k]) == TestMethod(g, basename, cases[k]);
    if Body(g, basename, cases).Some? {
      assert MapAll(render, cases).value == Tests(g, basename, cases);
    }
  }

  /** The cases of the first `i + 1` URLs are those of the first `i`, then
      the `i`-th URL's. */
  lemma CasesStep(urls: seq<Route>, i: nat)
    requires i < |urls|
    ensures Cases(urls[..i + 1]) == Cases(urls[..i]) + CasesOf(urls[i])
  {
    assert urls[..i + 1][..i] == urls[..i];
  }

  /** A `KeyError` at the `j`-th method of the `i`-th URL is a `KeyError` of
      the whole view set. */
  lemma FailureInside(render: Case -> Option<string>, urls: seq<Route>, i: nat, j: nat)
    requires i < |urls| && j < |urls[i].methodMap|
    requires MapAll(render, Cases(urls[..i]) + CasesOf(urls[i])[..j + 1]) == None
    ensures MapAll(render, Cases(urls)) == None
  {
    var upTo := Cases(urls[..i]) + CasesOf(urls[i])[..j + 1];
    var more := CasesOf(urls[i])[j + 1..] + Cases(urls[i + 1..]);
    CasesSplitAt(urls, i, j);
    MapAllNoneStays(render, upTo, more);
    assert MapAll(render, upTo + more) == None;
  }

  /** The cases of a view set, cut after the `j`-th method of the `i`-th URL. */
  lemma CasesSplitAt(urls: seq<Route>, i: nat, j: nat)
    requires i < |urls| && j < |urls[i].methodMap|
    ensures Cases(urls) ==
      (Cases(urls[..i]) + CasesOf(urls[i])[..j + 1]) + (CasesOf(urls[i])[j + 1..] + Cases(urls[i + 1..]))
  {
    var front, rest := urls[..i + 1], urls[i + 1..];
    var mine := CasesOf(urls[i]);
    assert urls == front + rest;
    CasesAppend(front, rest);
    CasesStep(urls, i);
    assert mine == mine[..j + 1] + mine[j + 1..];
  }

  lemma BodyOfRun(g: Generator, basename: string, cases: seq<Case>)
    ensures MapAll(Render(g, basename), cases) == None ==> Body(g, basename, cases) == None
    ensures MapAll(Render(g, basename), cases).Some? ==>
      Body(g, basename, cases) == Some(PrefixEach("\n", MapAll(Render(g, basename), cases).value))
  {
  }

  /** Appending one test appends it after a newline. */
  lemma PrefixEachSnoc(tests: seq<string>, t: string)
    ensures PrefixEach("\n", tests + [t]) == PrefixEach("\n", tests) + "\n" + t
  {
    assert (tests + [t])[..|tests|] == tests;
  }

  /** The base `generate_tests_for_viewset`: the nested loop over URLs and
      their method maps. */
  method GenerateTestsBody(g: Generator, v: ViewSetData) returns (r: Option<string>)
    ensures r == Body(g, v.basename, Cases(v.urls))
  {
    ghost var collected: seq<string> := [];
    var tests := "";
    var i := 0;
    while i < |v.urls|
      invariant 0 <= i <= |v.urls|
      invariant MapAll(Render(g, v.basename), Cases(v.urls[..i])) == Some(collected)
      invariant tests == PrefixEach("\n", collected)
    {
      var url := v.urls[i];
      ghost var done := Cases(v.urls[..i]);
      var j := 0;
      assert done + CasesOf(url)[..j] == done;
      while j < |url.methodMap|
        invariant 0 <= j <= |url.methodMap|
        invariant MapAll(Render(g, v.basename), done + CasesOf(url)[..j]) == Some(collected)
        invariant tests == PrefixEach("\n", collected)
      {
        var (httpMethod, action) := url.methodMap[j];
        var test := BuildTestMethod(g, url, v.basename, httpMethod, action);
        ghost var c := CasesOf(url)[j];
        AppendOneMore(done, CasesOf(url), j);
        MapAllSnoc(Render(g, v.basename), done + CasesOf(url)[..j], c);
        assert Render(g, v.basename)(c) == test;
        if test.None? {
          assert MapAll(Render(g, v.basename), done + CasesOf(url)[..j + 1]) == None;
          FailureInside(Render(g, v.basename), v.urls, i, j);
          BodyOfRun(g, v.basename, Cases(v.urls));
          return None;
        }
        PrefixEachSnoc(collected, test.value);
        collected := collected + [test.value];
        tests := tests + "\n" + test.value;
        j := j + 1;
      }
      assert CasesOf(url)[..j] == CasesOf(url);
      CasesStep(v.urls, i);
      assert done + CasesOf(url)[..j] == Cases(v.urls[..i + 1]);
      assert MapAll(Render(g, v.basename), done + CasesOf(url)[..j]) == Some(collected);
      assert MapAll(Render(g, v.basename), Cases(v.urls[..i + 1])) == Some(collected);
      i := i + 1;
    }
    assert v.urls[..i] == v.urls;
    BodyOfRun(g, v.basename, Cases(v.urls));
    r := Some(tests);
  }

  // ---------------------------------------------- per-dialect view set block

  /** `build_test_class`. */
  function TestClassHeader(viewsetName: string, base: TestBaseClass): string
  {
    "\n\nclass " + viewsetName + "Tests(" + base.className + "):\n"
  }

  /** The pytest dialect's comment header. */
  function SectionHeader(viewsetName: string): string
  {
    "\n# " + viewsetName + " Tests\n"
  }

  /** The dialect's `generate_tests_for_viewset`: the unittest dialect wraps
      the indented tests in a class, the pytest dialect puts a comment line
      before them. */
  function ViewSetBlock(g: Generator, v: ViewSetData): Option<string>
  {
    match Body(g, v.basename, Cases(v.urls))
    case None => None
    case Some(tests) =>
      match g.dialect
      case UnitTest(base) => Some(TestClassHeader(v.name, base) + Indent(tests, "    "))
      case PyTest(_, _) => Some(SectionHeader(v.name) + tests)
  }

  method GenerateTestsForViewSet(g: Generator, v: ViewSetData) returns (r: Option<string>)
    ensures r == ViewSetBlock(g, v)
  {
    var tests := GenerateTestsBody(g, v);
    if tests.None? {
      return None;
    }
    match g.dialect
    case UnitTest(base) =>
      r := Some(TestClassHeader(v.name, base) + Indent(tests.value, "    "));
    case PyTest(_, _) =>
      r := Some(SectionHeader(v.name) + tests.value);
  }

  /** A view set's block, when every method is known to the policy: the
      unittest dialect's class header followed by each test indented by four
      spaces, or the pytest dialect's comment line followed by the tests, each
      test after a newline, in case order. */
  lemma BlockShape(g: Generator, v: ViewSetData)
    requires forall k :: 0 <= k < |Cases(v.urls)| ==> Cases(v.urls)[k].httpMethod in HttpMethods
    ensures ViewSetBlock(g, v).Some?
    ensures g.dialect.UnitTest? ==>
      ViewSetBlock(g, v).value ==
        TestClassHeader(v.name, g.dialect.base) + PrefixEach("\n", IndentEach(Tests(g, v.basename, Cases(v.urls)), "    "))
    ensures g.dialect.PyTest? ==>
      ViewSetBlock(g, v).value == SectionHeader(v.name) + PrefixEach("\n", Tests(g, v.basename, Cases(v.urls)))
  {
    BodyIsOneTestPerCase(g, v.basename, Cases(v.urls));
    IndentPrefixed(Tests(g, v.basename, Cases(v.urls)), "    ");
  }

  // ------------------------------------------------------- all view sets

  /** The dialect's `generate_tests_for_viewset` as a function of the view
      set. */
  function Block(g: Generator): ViewSetData -> Option<string>
  {
    v => ViewSetBlock(g, v)
  }

  /** `generate_tests`: one block per selected view set, in order; `None` is
      a `KeyError` raised while rendering one of them. */
  function Blocks(g: Generator, data: seq<ViewSetData>): Option<seq<string>>
  {
    MapAll(Block(g), data)
  }

  /** The blocks are one per view set, each the view set's own block, in
      order; they exist exactly when every view set's block does. */
  lemma BlocksAreOnePerViewSet(g: Generator, data: seq<ViewSetData>)
    ensures Blocks(g, data).Some? <==> forall k :: 0 <= k < |data| ==> ViewSetBlock(g, data[k]).Some?
    ensures Blocks(g, data).Some? ==>
      |Blocks(g, data).value| == |data| &&
      forall k :: 0 <= k < |data| ==> Blocks(g, data).value[k] == ViewSetBlock(g, data[k]).value
  {
    MapAllSpec(Block(g), data);
    assert forall k :: 0 <= k < |data| ==> Block(g)(data[k]) == ViewSetBlock(g, data[k]);
  }

  method GenerateTests(g: Generator, registry: seq<RegistryEntry>) returns (r: Option<seq<string>>)
    ensures r == Blocks(g, SelectedData(g.selectedViewsets, registry))
  {
    var data := GenerateViewSetDataFromRouter(g, registry);
    var tests := [];
    var i := 0;
    while i < |data|
      invariant 0 <= i <= |data|
      invariant Blocks(g, data[..i]) == Some(tests)
    {
      var block := GenerateTestsForViewSet(g, data[i]);
      assert Block(g)(data[i]) == block;
      MapAllStep(Block(g), data, i, tests);
      if block.None? {
        return None;
      }
      tests := tests + [block.value];
      i := i + 1;
    }
    assert data[..i] == data;
    r := Some(tests);
  }

  // ------------------------------------------------------------- header

  /** The base `get_import_string`, dedented. */
  const ReverseImport := "from django.urls import reverse"
  const StatusImport := "from rest_framework import status"
  const CommonImports := ReverseImport + "\n" + "\n" + StatusImport + "\n"

  /** The dialect's `get_import_string`. */
  function Header(d: Dialect): string
  {
    CommonImports + "\n" + DialectImport(d) + "\n"
  }

  /** The last import of the header: the base class's, or pytest. */
  function DialectImport(d: Dialect): string
  {
    match d
    case UnitTest(base) => ImportStatement(base)
    case PyTest(_, _) => "import pytest"
  }

  /** The header is the three import groups in fixed order, separated by
      blank lines: `reverse`, `status`, then the dialect's own import. */
  lemma HeaderLines(d: Dialect)
    requires '\n' !in DialectImport(d)
    ensures Split(Header(d), '\n') == [ReverseImport, "", StatusImport, "", DialectImport(d), ""]
  {
    assert '\n' !in ReverseImport && '\n' !in StatusImport;
    SplitBlankSeparated(ReverseImport, StatusImport, DialectImport(d));
  }

  // ---------------------------------------------------------------- run

  /** A set, non-empty output path: the file branch of `run`. */
  predicate WritesFile(g: Generator)
  {
    g.outputFile.Some? && g.outputFile.value != ""
  }

  /** `run`: the fallback message always goes to standard output; the
      header and the blocks go to the output file when one is set, and to
      standard output otherwise. */
  function RunOutcome(g: Generator, registry: seq<RegistryEntry>): Outcome
  {
    match Blocks(g, SelectedData(g.selectedViewsets, registry))
    case None => KeyError
    case Some(blocks) =>
      if blocks == [] then Printed(NoTestsGenerated)
      else if WritesFile(g) then Appended(g.outputFile.value, Header(g.dialect) + Join(blocks, ""))
      else Printed(Header(g.dialect) + Join(blocks, ""))
  }

  method Run(g: Generator, registry: seq<RegistryEntry>) returns (o: Outcome)
    ensures o == RunOutcome(g, registry)
  {
    var tests := GenerateTests(g, registry);
    if tests.None? {
      return KeyError;
    }
    if tests.value == [] {
      return Printed(NoTestsGenerated);
    }
    if g.outputFile.Some? && g.outputFile.value != "" {
      o := Appended(g.outputFile.value, Header(g.dialect) + Join(tests.value, ""));
    } else {
      o := Printed(Header(g.dialect) + Join(tests.value, ""));
    }
  }

  /** The header starts with its first import, never with the fallback
      message. */
  lemma HeaderIsNotFallback(d: Dialect, blocks: string)
    ensures Header(d) + blocks != NoTestsGenerated
  {
    assert ReverseImport[0] == 'f';
    assert CommonImports[0] == 'f';
    assert Header(d)[0] == 'f';
    assert (Header(d) + blocks)[0] == 'f';
  }

  /** `run` prints "No tests generated." to standard output, whether or not
      an output file is set, exactly when no view set survives selection. */
  lemma RunFallback(g: Generator, registry: seq<RegistryEntry>)
    ensures RunOutcome(g, registry) == Printed(NoTestsGenerated) <==> SelectedData(g.selectedViewsets, registry) == []
  {
    var data := SelectedData(g.selectedViewsets, registry);
    BlocksAreOnePerViewSet(g, data);
    match Blocks(g, data)
    case None =>
    case Some(blocks) =>
      if blocks != [] {
        HeaderIsNotFallback(g.dialect, Join(blocks, ""));
      }
  }

  /** `run` stops with `KeyError` exactly when some case of a selected view
      set has a method the policy does not know. */
  lemma RunKeyError(g: Generator, registry: seq<RegistryEntry>)
    ensures var data := SelectedData(g.selectedViewsets, registry);
      RunOutcome(g, registry) == KeyError <==>
        exists k, c :: 0 <= k < |data| && c in Cases(data[k].urls) && c.httpMethod !in HttpMethods
  {
    var data := SelectedData(g.selectedViewsets, registry);
    BlocksAreOnePerViewSet(g, data);
    forall k | 0 <= k < |data|
      ensures ViewSetBlock(g, data[k]).Some? <==> forall c :: c in Cases(data[k].urls) ==> c.httpMethod in HttpMethods
    {
      BodyIsOneTestPerCase(g, data[k].basename, Cases(data[k].urls));
    }
  }

  /** Otherwise `run` emits the header followed by the selected view sets'
      blocks, in registry order: appended to the output file exactly when
      one is set, printed otherwise. */
  lemma RunEmitsBlocks(g: Generator, registry: seq<RegistryEntry>)
    ensures var data := SelectedData(g.selectedViewsets, registry);
      !RunOutcome(g, registry).KeyError? && data != [] ==>
        && (forall k :: 0 <= k < |data| ==> ViewSetBlock(g, data[k]).Some?)
        && (RunOutcome(g, registry).Appended? <==> WritesFile(g))
        && (RunOutcome(g, registry).Appended? ==> RunOutcome(g, registry).file == g.outputFile.value)
        && RunOutcome(g, registry).text ==
             Header(g.dialect) + Join(seq(|data|, k requires 0 <= k < |data| => ViewSetBlock(g, data[k]).value), "")
  {
    var data := SelectedData(g.selectedViewsets, registry);
    BlocksAreOnePerViewSet(g, data);
    if !RunOutcome(g, registry).KeyError? && data != [] {
      var blocks := Blocks(g, data).value;
      assert blocks == seq(|data|, k requires 0 <= k < |data| => ViewSetBlock(g, data[k]).value);
    }
  }

  /** An allow-list that names no registered view set yields the fallback. */
  lemma AllowListMatchingNothing(g: Generator, registry: seq<RegistryEntry>)
    requires g.selectedViewsets.Some? && g.selectedViewsets.value != []
    requires forall i :: 0 <= i < |registry| ==> registry[i].viewset !in g.selectedViewsets.value
    ensures RunOutcome(g, registry) == Printed(NoTestsGenerated)
  {
    FilterNone(AllViewSetData(registry), Keeper(g.selectedViewsets));
    RunFallback(g, registry);
  }
}
