# drf-test-generator, modelled in Dafny

drf-test-generator walks a Django REST Framework router and writes one
test per (URL, HTTP method) pair of every registered view set. It has two
output dialects: `unittest` test classes and `pytest` functions. This
project models its text-generation pipeline. The router's registry comes in
already resolved, as a sequence of records. Each record holds the view
set's name, its basename and its routes. Each route holds a URL name, an
ordered list of lookup names and an ordered list of
(HTTP method, action) pairs. From this input the model builds the exact
text that `run` would print or append to the output file.

Files:

- `constants.dfy`: the status-code policy (`HTTP_METHOD_STATUS_CODE_MAP`).
- `base_class.dfy`: `TestBaseClass`, meaning how the base class is resolved
  from a dotted path and how it is imported.
- `fragments.dfy`: the two dialects and the pieces of one test. These are
  the test name, the `reverse(...)` call with its `kwargs` dictionary, the
  client request, the status assertion, the argument list and the pytest
  marker block.
- `viewset.dfy`: `ViewSetData`, view set selection, the nested loop over
  URLs and methods, the per-dialect view set block, the header and `run`.
- `strings.dfy`, `sequences.dfy`, `wrappers.dfy`: the Python `str` and
  list operations the generator relies on: `join`, `replace`,
  `rsplit('.', 1)`, splitting into lines and `textwrap.indent`. They also
  hold a generic "map over a list, stopping at the first exception"
  (`MapAll`), filtering, and `Option`.

The Python loops are Dafny methods with `while` loops:
`ViewSetData.__init__`, `generate_viewset_data_from_router`,
`generate_tests_for_viewset`, `generate_tests`, `build_test_method_args`
and `build_test_markers`. Each loop is proved equal to a specification
function, and the source's promises are proved about that function as
lemmas. The `KeyError` raised for an HTTP method missing from the policy
map is an `Option` that is `None`. It propagates up to `Outcome.KeyError`
of `run`.

Where the design description and the code disagree, the model follows the
code:

- The test name is not lower-cased. The basename, action and method are
  used as given, with only `-` in the basename replaced by `_`.
- Lookup names keep the order of the compiled pattern's groups, because
  `dict.fromkeys` keeps insertion order. They are not an unordered set.
- A base-class path such as `.Foo` has an empty module part. An empty
  string is falsy, so the code emits `import Foo`.

## Model

| member | source | states |
|---|---|---|
| Constants.StatusFor | drf_test_generator/constants.py:3-11 | the policy answers exactly for the seven known methods; every answer starts with `status.HTTP_` and holds no newline |
| Constants.PolicyDomain | drf_test_generator/constants.py:3-11 | the map's domain is exactly head, options, get, post, put, patch, delete |
| Constants.PolicyCodes | drf_test_generator/constants.py:4-10 | post maps to 201 CREATED, delete to 204 NO_CONTENT, and exactly head/options/get/put/patch map to 200 OK (each an if-and-only-if) |
| BaseClass.Resolve | drf_test_generator/viewset.py:66-77 | no path or an empty path gives `APITestCase` from `rest_framework.test`; a dotted path splits into module and class that rejoin with `.` to the path, with no `.` in the class; a dot-free path is a bare class with no module |
| BaseClass.DefaultImport | drf_test_generator/viewset.py:75-82 | with no base class configured, the import line is `from rest_framework.test import APITestCase`; an empty path behaves like no path |
| BaseClass.DottedImport | drf_test_generator/viewset.py:67-81 | a path with a dot after its first character (so a non-empty module part, `.a.B` included) imports as `from M import C`, where `M.C` is the path and `C` is the part after the last dot |
| BaseClass.LeadingDotImport | drf_test_generator/viewset.py:67-82 | a path `.C` whose only dot is in front has an empty, falsy module part and imports as exactly `import C` |
| BaseClass.BareImport | drf_test_generator/viewset.py:72-82 | a non-empty path without a dot imports as exactly `import <path>` |
| BaseClass.ResolveJoined | drf_test_generator/viewset.py:67-71 | the split at the last dot inverts joining a module path and a dot-free class name |
| Fragments.TestMethodName | drf_test_generator/viewset.py:112-116 | the name is `test_`, then the basename with every `-` replaced by `_` (character by character), then `_action_method`, and its length follows from those parts |
| Fragments.NoHyphenFromBasename | drf_test_generator/viewset.py:112-116 | a `-` in a test name can only come from the action or the method, never from the basename |
| Fragments.Reverse | drf_test_generator/viewset.py:118-126 | the call starts with `reverse('ns:name'` when the namespace is set and non-empty, and with `reverse('name'` otherwise |
| Fragments.ReverseKwargs | drf_test_generator/viewset.py:118-126 | with no lookup names the call is exactly `reverse('...')`; otherwise it has a `, kwargs=` clause whose dictionary reads back as every lookup name, in order, mapped to `None`, followed by the closing `)` |
| Fragments.DictReprRoundTrip | drf_test_generator/viewset.py:123 | the repr of `dict.fromkeys(names)` parses back to exactly `names`, each mapped to `None` |
| Fragments.Request | drf_test_generator/viewset.py:234-238 | in both dialects (unittest here, pytest at 285-289) the request is the dialect's client, then the method, then `(url`, and it ends in `)`; it ends in `, data={})` if and only if the method is post, put or patch, and its length leaves room for exactly `(url, data={})` in that case and exactly `(url)` otherwise |
| Fragments.AssertStatement | drf_test_generator/viewset.py:227-232 | in both dialects (pytest at 278-283) the assertion exists if and only if the method is in the policy, and reading it back gives the policy's status constant for that method |
| Fragments.BuildTestMethodArgs | drf_test_generator/viewset.py:291-297 | the loop's result is the dialect's argument list: `self` for unittest (240-241), or `client` and the fixtures joined by `, ` |
| Fragments.ArgsAreClientThenFixtures | drf_test_generator/viewset.py:291-297 | the pytest arguments are `client` followed by `, <fixture>` for each fixture in configured order, and just `client` when there are none |
| Fragments.BuildTestMarkers | drf_test_generator/viewset.py:299-305 | the loop's result is `@pytest.mark.django_db`, then `@<marker>` per marker, joined by newlines |
| Fragments.MarkerLines | drf_test_generator/viewset.py:299-305 | the marker block's lines are exactly `@pytest.mark.django_db` followed by `@<marker>` for each configured marker, in order |
| ViewSet.NewViewSetData | drf_test_generator/viewset.py:31-56 | the loop keeps exactly the routes with a non-empty method map, in route order |
| ViewSet.ViewSetUrls | drf_test_generator/viewset.py:38-42 | every URL is a route with methods, no route with methods is dropped, and a view set has no URL exactly when none of its routes has a method |
| ViewSet.GenerateViewSetDataFromRouter | drf_test_generator/viewset.py:137-152 | the loop returns the registry's view sets filtered by selection and by having URLs |
| ViewSet.SelectionKeepsRegistryOrder | drf_test_generator/viewset.py:137-152 | the kept view sets come from strictly increasing registry positions, and a position is kept exactly when its view set is selected (a None or empty list selects all) and has URLs |
| ViewSet.SelectedAreNonEmpty | drf_test_generator/viewset.py:140-150 | every kept view set is selected, has at least one URL, and all its URLs have methods |
| ViewSet.AllowListMatchingNothing | drf_test_generator/viewset.py:141-145 | a non-empty allow-list naming no registered view set leads `run` to print only the fallback message |
| ViewSet.CasesArePairs | drf_test_generator/viewset.py:170-171 | the cases of a view set are exactly its (URL, method-map entry) pairs, one case per pair |
| ViewSet.BuildTestMethod | drf_test_generator/viewset.py:154-165 | the method computes the test for a case: the template filled in, with the marker block in front for pytest (310-316), or `KeyError` for an unknown method |
| ViewSet.TestMethod | drf_test_generator/viewset.py:154-165 | a test is produced if and only if the case's method is known to the policy |
| ViewSet.TemplateLines | drf_test_generator/viewset.py:158-165 | the dedented template is exactly four lines: the `def` line and three body lines indented by four spaces, followed by a final newline |
| ViewSet.TestBodyLines | drf_test_generator/viewset.py:158-165 | a case's test body is its `def` line with the test name and arguments, its `reverse` line, its request line and its status assertion |
| ViewSet.GenerateTestsBody | drf_test_generator/viewset.py:167-177 | the nested loop returns the base view set body, or `KeyError` as soon as one case's method is unknown |
| ViewSet.BodyIsOneTestPerCase | drf_test_generator/viewset.py:167-177 | the body fails exactly when some case's method is unknown; otherwise it is one test per case, in URL-then-method order, each after a newline |
| ViewSet.GenerateTestsForViewSet | drf_test_generator/viewset.py:252-259 | the method returns the dialect's block: the class header and the indented body for unittest, or the comment header and the body for pytest (318-321) |
| ViewSet.BlockShape | drf_test_generator/viewset.py:252-259 | when every method is known, the unittest block is `class <Name>Tests(<base>):` followed by each test indented by four spaces, and the pytest block (318-321) is `# <Name> Tests` followed by each test |
| Strings.IndentPrefixed | drf_test_generator/viewset.py:255-258 | indenting the body indents each test on its own |
| ViewSet.GenerateTests | drf_test_generator/viewset.py:179-183 | the loop returns one block per selected view set, or `KeyError` |
| ViewSet.BlocksAreOnePerViewSet | drf_test_generator/viewset.py:179-183 | the blocks exist exactly when every view set's block does; then there is one per view set, each that view set's own block, in order |
| ViewSet.HeaderLines | drf_test_generator/viewset.py:246-250 | the header is the `reverse` import, a blank line, the `status` import, a blank line and the dialect's import (the base class, or `import pytest` at 307-308), each on its own line |
| ViewSet.Run | drf_test_generator/viewset.py:200-210 | the method returns what `run` does: the fallback printed, the text appended to the output file when a non-empty path is set, the text printed otherwise, or `KeyError` |
| ViewSet.RunFallback | drf_test_generator/viewset.py:200-205 | `run` prints `No tests generated.` to standard output, even when an output file is set, exactly when no view set survives selection |
| ViewSet.RunKeyError | drf_test_generator/viewset.py:200-201 | `run` stops with `KeyError` exactly when some case of a selected view set has a method the policy does not know |
| ViewSet.RunEmitsBlocks | drf_test_generator/viewset.py:207-210 | otherwise the output is the header followed by each selected view set's block, in registry order; it is appended to the output file exactly when a non-empty path is set, and printed otherwise |

## Left out

- Router reflection is not modelled: `get_routes`, `get_method_map`, `get_lookup_regex`, URL and name formatting, and `re.compile(...).groupindex`. These are calls into Django REST Framework and Python's regular-expression engine. Their results are the input records.
- Output is not modelled as I/O. `run` returns which sink receives which text: standard output or the output file's path. The file's earlier contents are not modelled. Writing the header and then each block is one appended text.
- `lru_cache` memoisation is left out. It has no effect on the output.
- The `abc` abstract-method machinery is left out. The two generators are a tagged variant (`Dialect`).
- The management command is left out: argument parsing, `import_string` and `CommandError`.
- `textwrap.dedent` is modelled as the literal template text it produces. This holds when no fragment contains a newline (`TemplateLines`).
- `Strings.Indent` splits on `\n` only and treats only ASCII whitespace as blank. Python's `splitlines` also breaks at other line boundaries, and `strip` knows Unicode whitespace.
- Fragments.DictRepr: the lookup dictionary's repr does not escape quotes. Lookup names are regular-expression group names, which hold no quote, and the round trip is stated for such names.
- Fragments.Reverse: the lookup names are a list, not a dictionary. A compiled pattern never repeats a group name, so its keys are the list's elements in order.
- ViewSet.Run: a `KeyError` is an `Outcome` without the offending method's name.
- `None` for the pytest markers or fixtures is the empty list, as `or []` makes it in the constructor.
