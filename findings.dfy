/**
 * `mkdir` and `touch` as written (components/ContainerCard.tsx, lines 148 and
 * 170): `children[name]` is a property read on a plain object, so it is
 * truthy for the names every object inherits from `Object.prototype`. In a
 * directory without such a child, `mkdir toString` reports that the file
 * exists and `touch toString` silently creates nothing. `Shell.Mkdir` and
 * `Shell.Touch` read the test as an own-property test, which is what the
 * messages promise.
 */
module Findings {
  import opened Types
  import opened Vfs
  import opened Shell
  import ShellProperties

  /** `mkdir` with the property read JavaScript performs. */
  function MkdirAsWritten(c: Container, arg: Option<string>): Outcome {
    MakeDirectory(c, arg, HasChildAsWritten(Lookup(c.currentPath, c.filesystem), OrElse(arg, "")))
  }

  /** `touch` with the property read JavaScript performs. */
  function TouchAsWritten(c: Container, arg: Option<string>): Outcome {
    CreateFile(c, arg, HasChildAsWritten(Lookup(c.currentPath, c.filesystem), OrElse(arg, "")))
  }

  /** No inherited name holds a path separator, so each one reaches the existence test. */
  lemma InheritedNamesPlain(name: string)
    requires name in InheritedNames
    ensures name != "" && !HasSeparator(name)
  {
    if name in {"constructor", "hasOwnProperty", "isPrototypeOf", "propertyIsEnumerable"} {
      ObjectMethodsPlain(name);
    } else if name in {"toLocaleString", "toString", "valueOf", "__proto__"} {
      ConversionsPlain(name);
    } else {
      AccessorsPlain(name);
    }
  }

  lemma ObjectMethodsPlain(name: string)
    requires name in {"constructor", "hasOwnProperty", "isPrototypeOf", "propertyIsEnumerable"}
    ensures name != "" && !HasSeparator(name)
  {
  }

  lemma ConversionsPlain(name: string)
    requires name in {"toLocaleString", "toString", "valueOf", "__proto__"}
    ensures name != "" && !HasSeparator(name)
  {
  }

  lemma AccessorsPlain(name: string)
    requires name in {"__defineGetter__", "__defineSetter__", "__lookupGetter__", "__lookupSetter__"}
    ensures name != "" && !HasSeparator(name)
  {
  }

  /**
   * For an inherited name the current directory does not hold, the code as
   * written refuses to create the directory and creates no file, while the
   * own-property reading creates either.
   */
  lemma InheritedNameRefused(c: Container, name: string)
    requires Valid(c) && name in InheritedNames
    requires Find(Lookup(c.currentPath, c.filesystem).value.children, name).None?
    ensures MkdirAsWritten(c, Some(name)) == Done(c, Some(Failure(FileExists(name))))
    ensures TouchAsWritten(c, Some(name)) == Done(c, None)
    ensures Mkdir(c, Some(name)).output.None?
    ensures Lookup(c.currentPath, Mkdir(c, Some(name)).container.filesystem)
         == Some(Directory(Lookup(c.currentPath, c.filesystem).value.name,
                           Lookup(c.currentPath, c.filesystem).value.children + [Entry(name, Directory(name, []))]))
    ensures Lookup(c.currentPath, Touch(c, Some(name)).container.filesystem)
         == Some(Directory(Lookup(c.currentPath, c.filesystem).value.name,
                           Lookup(c.currentPath, c.filesystem).value.children + [Entry(name, File(name, ""))]))
  {
    InheritedNamesPlain(name);
    ShellProperties.MkdirOutcome(c, Some(name));
    ShellProperties.TouchOutcome(c, Some(name));
  }

  /** A container with an empty root, at the root. */
  function EmptyContainer(): Container {
    Container("c", Operator, "", Templates("", [], []), Initialized, "", [], Directory("/", []), "/")
  }

  /**
   * The concrete input: in an empty root, `mkdir toString` reports that the
   * file exists and `touch toString` leaves the root empty; read as
   * own-property tests, they create the directory and the file.
   */
  lemma ToStringCounterexample()
    ensures Find(EmptyContainer().filesystem.children, "toString") == None
    ensures MkdirAsWritten(EmptyContainer(), Some("toString")) == Done(EmptyContainer(), Some(Failure(FileExists("toString"))))
    ensures TouchAsWritten(EmptyContainer(), Some("toString")) == Done(EmptyContainer(), None)
    ensures Mkdir(EmptyContainer(), Some("toString")).output.None?
    ensures Touch(EmptyContainer(), Some("toString")).container.filesystem
         == Directory("/", [Entry("toString", File("toString", ""))])
  {
    var c := EmptyContainer();
    LookupRoot(c.filesystem);
    InheritedNamesPlain("toString");
  }

  /** For every other name the code as written and the own-property reading agree. */
  lemma AgreeOtherwise(c: Container, arg: Option<string>)
    requires OrElse(arg, "") !in InheritedNames
    ensures MkdirAsWritten(c, arg) == Mkdir(c, arg)
    ensures TouchAsWritten(c, arg) == Touch(c, arg)
  {
  }
}
