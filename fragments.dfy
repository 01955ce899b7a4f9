/** The text fragments one generated test is made of: its name, the
    `reverse(...)` call, the client request, the status assertion, the
    argument list and (pytest) the marker lines. The two output dialects
    (unittest and pytest) differ only in some of these fragments. */
module Fragments {
  import opened Wrappers
  import opened Strings
  import opened Constants
  import opened BaseClass

  /** The two generators: `UnitTestViewSetTestGenerator` with its resolved
      base class, and `PyTestViewSetTestGenerator` with its extra marker
      lines and fixture names (`None` for either is the empty list). */
  datatype Dialect =
    | UnitTest(base: TestBaseClass)
    | PyTest(markers: seq<string>, fixtures: seq<string>)

  // ---------------------------------------------------------------- name

  /** `build_test_method_name`: `test_<basename>_<action>_<method>` with
      every `-` of the basename turned into `_`. */
  function TestMethodName(basename: string, action: string, httpMethod: string): (r: string)
    ensures |r| == 7 + |basename| + |action| + |httpMethod|
    ensures r[..5] == "test_"
    ensures forall i :: 0 <= i < |basename| ==>
      r[5 + i] == if basename[i] == '-' then '_' else basename[i]
    ensures r[5 + |basename|..] == "_" + action + "_" + httpMethod
  {
    "test_" + ReplaceChar(basename, '-', '_') + "_" + action + "_" + httpMethod
  }

  /** No `-` of the basename survives into the test name: a `-` in the name
      comes from the action or the method. */
  lemma NoHyphenFromBasename(basename: string, action: string, httpMethod: string)
    ensures '-' in TestMethodName(basename, action, httpMethod) ==> '-' in action || '-' in httpMethod
  {
    var r := TestMethodName(basename, action, httpMethod);
    if '-' in r {
      var i :| 0 <= i < |r| && r[i] == '-';
      if i >= 5 + |basename| {
        assert r[i] == r[5 + |basename|..][i - 5 - |basename|];
      }
    }
  }

  // ------------------------------------------------------------- reverse

  /** `namespace + ":"` when the namespace is set and non-empty. */
  function NamespacePrefix(namespace: Option<string>): string
  {
    if namespace.Some? && namespace.value != "" then namespace.value + ":" else ""
  }

  /** Python's repr of one `name: None` entry of the lookup dictionary. */
  function Entry(name: string): string
  {
    "'" + name + "': None"
  }

  /** The entries of the lookup dictionary's repr, separated by `, `. */
  function Entries(names: seq<string>): string
  {
    if |names| == 0 then ""
    else if |names| == 1 then Entry(names[0])
    else Entry(names[0]) + ", " + Entries(names[1..])
  }

  /** Python's repr of `dict.fromkeys(names)`, e.g. `{'pk': None}`. */
  function DictRepr(names: seq<string>): string
  {
    "{" + Entries(names) + "}"
  }

  /** Reads one `'<key>': None` entry off the front of `s`: the key and what
      follows the entry. */
  function ParseEntry(s: string): (r: Option<(string, string)>)
    ensures r.Some? ==> |r.value.1| < |s|
  {
    if s == "" || s[0] != '\'' then None
    else
      var q := IndexOf(s[1..], '\'');
      if q == |s| - 1 || !(": None" <= s[q + 2..]) then None
      else Some((s[1..q + 1], s[q + 8..]))
  }

  /** Reads the entries of a dictionary repr back: every key in order, each
      of which must map to `None`. */
  function ParseEntries(s: string): Option<seq<string>>
    decreases |s|
  {
    if s == "" then Some([])
    else
      match ParseEntry(s)
      case None => None
      case Some((key, rest)) =>
        if rest == "" then Some([key])
        else if !(", " <= rest) then None
        else
          match ParseEntries(rest[2..])
          case None => None
          case Some(keys) => Some([key] + keys)
  }

  /** Reads a dictionary repr `{...}` back into its keys. */
  function ParseDict(s: string): Option<seq<string>>
  {
    if |s| >= 2 && s[0] == '{' && s[|s| - 1] == '}' then ParseEntries(s[1..|s| - 1]) else None
  }

  /** An entry reads back as its key, followed by whatever came after it. */
  lemma ParseEntryOf(n: string, tail: string)
    requires '\'' !in n
    ensures ParseEntry(Entry(n) + tail) == Some((n, tail))
  {
    var s := Entry(n) + tail;
    assert s == "'" + n + "': None" + tail;
    assert s[1..] == n + "'" + (": None" + tail);
    IndexOfAfter(n, '\'', ": None" + tail);
    assert s[1..|n| + 1] == n;
    assert s[|n| + 2..] == ": None" + tail;
    assert s[|n| + 8..] == tail;
  }

  lemma {:induction false} ParseEntriesRoundTrip(names: seq<string>)
    requires forall k :: 0 <= k < |names| ==> '\'' !in names[k]
    ensures ParseEntries(Entries(names)) == Some(names)
  {
    if |names| == 1 {
      ParseEntryOf(names[0], "");
      assert Entries(names) == Entry(names[0]) + "";
      assert names == [names[0]];
    } else if |names| > 1 {
      var tail := ", " + Entries(names[1..]);
      assert Entries(names) == Entry(names[0]) + tail;
      ParseEntryOf(names[0], tail);
      assert tail[2..] == Entries(names[1..]);
      ParseEntriesRoundTrip(names[1..]);
      assert names == [names[0]] + names[1..];
    }
  }

  /** Reading the lookup dictionary's repr back gives every lookup name, in
      order, each mapped to `None` (lookup names are regular-expression group
      names, so they hold no quote). */
  lemma DictReprRoundTrip(names: seq<string>)
    requires forall k :: 0 <= k < |names| ==> '\'' !in names[k]
    ensures ParseDict(DictRepr(names)) == Some(names)
  {
    var d := DictRepr(names);
    assert d[1..|d| - 1] == Entries(names);
    ParseEntriesRoundTrip(names);
  }

  /** `build_reverse`: `reverse('<ns:><url name>')`, with a `kwargs=` clause
      holding the lookup dictionary exactly when there are lookup names. */
  function Reverse(namespace: Option<string>, urlName: string, lookups: seq<string>): (r: string)
    ensures namespace.Some? && namespace.value != "" ==>
      "reverse('" + namespace.value + ":" + urlName + "'" <= r
    ensures !(namespace.Some? && namespace.value != "") ==>
      "reverse('" + urlName + "'" <= r
  {
    var head := "reverse('" + NamespacePrefix(namespace) + urlName + "'";
    if |lookups| > 0 then head + ", kwargs=" + DictRepr(lookups) + ")" else head + ")"
  }

  /** The `kwargs=` clause is there exactly when there are lookup names, and
      reading it back gives the lookup names, each mapped to `None`. */
  lemma ReverseKwargs(namespace: Option<string>, urlName: string, lookups: seq<string>)
    requires forall k :: 0 <= k < |lookups| ==> '\'' !in lookups[k]
    ensures var head := "reverse('" + NamespacePrefix(namespace) + urlName + "'";
      var r := Reverse(namespace, urlName, lookups);
      && (|lookups| == 0 ==> r == head + ")")
      && (|lookups| > 0 ==>
            head + ", kwargs=" <= r && |r| > |head| + 9 && r[|r| - 1] == ')' &&
            ParseDict(r[|head| + 9..|r| - 1]) == Some(lookups))
  {
    var head := "reverse('" + NamespacePrefix(namespace) + urlName + "'";
    var r := Reverse(namespace, urlName, lookups);
    if |lookups| > 0 {
      assert r == head + ", kwargs=" + DictRepr(lookups) + ")";
      assert r[|head| + 9..|r| - 1] == DictRepr(lookups);
      DictReprRoundTrip(lookups);
    }
  }

  // ------------------------------------------------------------- request

  /** The methods whose request carries an (empty) body. */
  const BodyMethods: set<string> := {"post", "put", "patch"}

  function ClientPrefix(d: Dialect): (r: string)
    ensures '\n' !in r
  {
    if d.UnitTest? then "self.client." else "client."
  }

  /** `build_request`: the client call for the method, with `data={}` only
      for post, put and patch, in either dialect. */
  function Request(d: Dialect, httpMethod: string): (r: string)
    ensures ClientPrefix(d) + httpMethod + "(url" <= r
    ensures EndsWith(r, ", data={})") <==> httpMethod in BodyMethods
    ensures EndsWith(r, ")")
    ensures |r| == |ClientPrefix(d)| + |httpMethod| + if httpMethod in BodyMethods then 14 else 5
    ensures '\n' !in httpMethod ==> '\n' !in r
  {
    var call := ClientPrefix(d) + httpMethod;
    if httpMethod in BodyMethods then
      var r := call + "(url, data={})";
      assert r[|r| - 10..] == ", data={})" && r[|r| - 1..] == ")";
      r
    else
      var r := call + "(url)";
      assert r[|r| - 1..] == ")";
      assert r[|r| - 2] == 'l' != ", data={})"[8];
      r
  }

  // ----------------------------------------------------------- assertion

  function AssertPrefix(d: Dialect): (r: string)
    ensures '\n' !in r
  {
    if d.UnitTest? then "self.assertEqual(response.status_code, " else "assert response.status_code == "
  }

  function AssertSuffix(d: Dialect): (r: string)
    ensures '\n' !in r
  {
    if d.UnitTest? then ")" else ""
  }

  /** Reads back the status constant an assertion of dialect `d` checks. */
  function AssertedStatus(d: Dialect, statement: string): Option<string>
  {
    var pre, suf := AssertPrefix(d), AssertSuffix(d);
    if |pre| + |suf| <= |statement| && pre <= statement && EndsWith(statement, suf) then
      Some(statement[|pre|..|statement| - |suf|])
    else None
  }

  /** `build_assert_statement`: `None` is the `KeyError` for a method the
      policy does not know; otherwise the assertion checks, in either
      dialect, exactly the policy's status constant for the method. */
  function AssertStatement(d: Dialect, httpMethod: string): (r: Option<string>)
    ensures r.Some? <==> httpMethod in HttpMethods
    ensures r.Some? ==> AssertedStatus(d, r.value) == StatusFor(httpMethod)
    ensures r.Some? ==> '\n' !in r.value
  {
    match StatusFor(httpMethod)
    case None => None
    case Some(code) =>
      var statement := AssertPrefix(d) + code + AssertSuffix(d);
      assert statement[|AssertPrefix(d)|..|statement| - |AssertSuffix(d)|] == code;
      Some(statement)
  }

  // ----------------------------------------------------- arguments, markers

  /** `build_test_method_args`: `self`, or `client` and the fixtures joined
      by `, `. */
  function MethodArgs(d: Dialect): string
  {
    match d
    case UnitTest(_) => "self"
    case PyTest(_, fixtures) => Join(["client"] + fixtures, ", ")
  }

  method BuildTestMethodArgs(d: Dialect) returns (r: string)
    ensures r == MethodArgs(d)
  {
    match d
    case UnitTest(_) =>
      r := "self";
    case PyTest(_, fixtures) =>
      var args := ["client"];
      var i := 0;
      while i < |fixtures|
        invariant 0 <= i <= |fixtures|
        invariant args == ["client"] + fixtures[..i]
      {
        args := args + [fixtures[i]];
        i := i + 1;
      }
      assert fixtures[..i] == fixtures;
      r := Join(args, ", ");
  }

  /** The pytest argument list is `client` followed by `, <fixture>` for each
      configured fixture, in order. */
  lemma ArgsAreClientThenFixtures(markers: seq<string>, fixtures: seq<string>)
    ensures MethodArgs(PyTest(markers, fixtures)) == "client" + PrefixEach(", ", fixtures)
    ensures fixtures == [] ==> MethodArgs(PyTest(markers, fixtures)) == "client"
  {
    JoinIsHeadThenPrefixed("client", fixtures, ", ");
  }

  const DjangoDbMarker := "@pytest.mark.django_db"

  /** Every configured marker with `@` in front. */
  function Decorators(markers: seq<string>): (r: seq<string>)
    ensures |r| == |markers|
    ensures forall i :: 0 <= i < |markers| ==> r[i] == "@" + markers[i]
  {
    seq(|markers|, i requires 0 <= i < |markers| => "@" + markers[i])
  }

  /** `build_test_markers`: the database marker, then `@<marker>` for every
      configured marker, one per line. */
  function Markers(markers: seq<string>): string
  {
    Join([DjangoDbMarker] + Decorators(markers), "\n")
  }

  method BuildTestMarkers(markers: seq<string>) returns (r: string)
    ensures r == Markers(markers)
  {
    var lines := [DjangoDbMarker];
    var i := 0;
    while i < |markers|
      invariant 0 <= i <= |markers|
      invariant lines == [DjangoDbMarker] + Decorators(markers[..i])
    {
      lines := lines + ["@" + markers[i]];
      i := i + 1;
    }
    assert markers[..i] == markers;
    r := Join(lines, "\n");
  }

  /** The marker block is `@pytest.mark.django_db` on the first line and then
      one line `@<marker>` per configured marker, in order. */
  lemma MarkerLines(markers: seq<string>)
    requires forall i :: 0 <= i < |markers| ==> '\n' !in markers[i]
    ensures Split(Markers(markers), '\n') == [DjangoDbMarker] + Decorators(markers)
  {
    var lines := [DjangoDbMarker] + Decorators(markers);
    forall k | 0 <= k < |lines| ensures '\n' !in lines[k] {
      if k > 0 {
        assert lines[k] == "@" + markers[k - 1];
      }
    }
    SplitJoin(lines, '\n');
  }
}
