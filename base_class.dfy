/** `TestBaseClass`: the class the unittest dialect's generated test classes
    inherit from, resolved from an optional dotted path. */
module BaseClass {
  import opened Wrappers
  import opened Strings

  const DefaultFromImport := "rest_framework.test"
  const DefaultClassName := "APITestCase"

  datatype TestBaseClass = TestBaseClass(className: string, fromImport: Option<string>)

  /** The constructor: no path (or an empty one) gives the framework's
      `APITestCase`; otherwise the path is split at its last `.` into the
      module to import from and the class name, and a path without a `.` is
      a bare class name with nothing to import it from. */
  function Resolve(testBaseClass: Option<string>): (b: TestBaseClass)
    ensures testBaseClass == None || testBaseClass == Some("") ==>
      b == TestBaseClass(DefaultClassName, Some(DefaultFromImport))
    ensures testBaseClass.Some? && '.' in testBaseClass.value ==>
      b.fromImport.Some? && b.fromImport.value + "." + b.className == testBaseClass.value && '.' !in b.className
    ensures testBaseClass.Some? && testBaseClass.value != "" && '.' !in testBaseClass.value ==>
      b == TestBaseClass(testBaseClass.value, None)
  {
    if testBaseClass.Some? && testBaseClass.value != "" then
      var path := testBaseClass.value;
      var dot := LastIndexOf(path, '.');
      if dot < 0 then TestBaseClass(path, None)
      else
        assert path[..dot] + "." + path[dot + 1..] == path;
        TestBaseClass(path[dot + 1..], Some(path[..dot]))
    else
      TestBaseClass(DefaultClassName, Some(DefaultFromImport))
  }

  /** `get_import_statement`: a `from ... import ...` line when there is a
      non-empty module to import from, and `import <class>` otherwise (an
      empty module string is falsy in the source, so `.Foo` yields
      `import Foo`). */
  function ImportStatement(b: TestBaseClass): string
  {
    if b.fromImport.Some? && b.fromImport.value != "" then
      "from " + b.fromImport.value + " import " + b.className
    else
      "import " + b.className
  }

  /** With no configured base class the header imports `APITestCase` from
      `rest_framework.test`. */
  lemma DefaultImport()
    ensures ImportStatement(Resolve(None)) == "from " + DefaultFromImport + " import " + DefaultClassName
    ensures ImportStatement(Resolve(Some(""))) == ImportStatement(Resolve(None))
  {
  }

  /** A dotted path whose module part is non-empty becomes a `from M import C`
      line whose `M` and `C` put back together give the path, with `C` the
      part after the last dot. */
  lemma {:induction false} DottedImport(path: string)
    requires path != "" && '.' in path[1..]
    ensures var b := Resolve(Some(path));
      && ImportStatement(b) == "from " + b.fromImport.value + " import " + b.className
      && b.fromImport.value + "." + b.className == path
      && '.' !in b.className
  {
    var b := Resolve(Some(path));
    var dot := LastIndexOf(path, '.');
    assert dot > 0 by {
      var k :| 0 <= k < |path| - 1 && path[1..][k] == '.';
      assert path[k + 1] == '.';
    }
    assert b.fromImport == Some(path[..dot]);
  }

  /** A path without a dot is imported bare: `import <path>`. */
  lemma BareImport(path: string)
    requires path != "" && '.' !in path
    ensures ImportStatement(Resolve(Some(path))) == "import " + path
  {
  }

  /** A path whose only dot is in front has an empty module part, which is
      falsy: it is imported bare, without the dot. */
  lemma LeadingDotImport(className: string)
    requires className != "" && '.' !in className
    ensures ImportStatement(Resolve(Some("." + className))) == "import " + className
  {
    ResolveJoined("", className);
    assert "" + "." + className == "." + className;
  }

  /** The inverse view of the split: a module path, a dot and a dot-free
      class name resolve back to that module and that class. */
  lemma ResolveJoined(fromImport: string, className: string)
    requires '.' !in className
    ensures Resolve(Some(fromImport + "." + className)) == TestBaseClass(className, Some(fromImport))
  {
    var path := fromImport + "." + className;
    var dot := LastIndexOf(path, '.');
    assert path[|fromImport|] == '.';
    assert forall j :: |fromImport| < j < |path| ==> path[j] == className[j - |fromImport| - 1];
    assert dot == |fromImport|;
    assert path[..dot] == fromImport;
    assert path[dot + 1..] == className;
  }
}
