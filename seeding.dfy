/**
 * The two template trees a container's filesystem is seeded from and
 * `createInitialFileSystem` (components/SystemOperatorView.tsx, lines 10-58):
 * a copy of the React + Vite tree when the base template's name contains
 * `REACT` and of the vanilla tree otherwise, with a Tailwind configuration
 * at the root and an IndexedDB module in `src` when those add-ons were
 * chosen.
 *
 * The file contents are a `SeedTexts` record, so that every property below
 * is proved for any contents; `SourceTexts` holds the texts the templates
 * ship with.
 */
module Seeding {
  import opened Text
  import opened Types
  import opened Vfs

  /** The contents of every file the templates and add-ons create. */
  datatype SeedTexts = SeedTexts(
    viteSvg: string,
    appCss: string,
    appTsx: string,
    indexCss: string,
    mainTsx: string,
    gitignore: string,
    reactIndexHtml: string,
    reactPackageJson: string,
    tsconfigJson: string,
    viteConfigJs: string,
    webconsolePhp: string,
    scriptPy: string,
    indexJs: string,
    stylesCss: string,
    vanillaIndexHtml: string,
    vanillaPackageJson: string,
    tailwindConfigJs: string,
    dbJs: string)

  /** The contents as the templates define them. */
  function SourceTexts(): SeedTexts {
    SeedTexts(
      "<svg xmlns=\"http://www.w3.org/2000/svg\" ...></svg>",
      "/* CSS for App */",
      "import React from \"react\";\n\nconst App = () => <div>Hello World</div>;\n\nexport default App;",
      "/* Main CSS */",
      "import React from \"react\";\nimport ReactDOM from \"react-dom/client\";\nimport App from \"./App.tsx\";\n\nReactDOM.createRoot(document.getElementById(\"root\")!).render(<App />);",
      "node_modules\ndist",
      "<!DOCTYPE html><html><head><title>React App</title></head><body><div id=\"root\"></div><script type=\"module\" src=\"/src/main.tsx\"></script></body></html>",
      "{\n  \"name\": \"react-app\",\n  \"private\": true,\n  \"version\": \"0.0.0\",\n  \"type\": \"module\",\n  \"scripts\": {\n    \"dev\": \"vite\",\n    \"build\": \"vite build\",\n    \"start\": \"vite preview\"\n  },\n  \"dependencies\": {\n    \"react\": \"^18.2.0\",\n    \"react-dom\": \"^18.2.0\"\n  },\n  \"devDependencies\": {\n    \"@types/react\": \"^18.0.27\",\n    \"@types/react-dom\": \"^18.0.10\",\n    \"@vitejs/plugin-react\": \"^3.1.0\",\n    \"typescript\": \"^4.9.3\",\n    \"vite\": \"^4.1.0\"\n  }\n}",
      "{ \"compilerOptions\": { \"target\": \"ESNext\", \"useDefineForClassFields\": true, \"lib\": [\"DOM\", \"DOM.Iterable\", \"ESNext\"], \"allowJs\": false, \"skipLibCheck\": true, \"esModuleInterop\": false, \"allowSyntheticDefaultImports\": true, \"strict\": true, \"forceConsistentCasingInFileNames\": true, \"module\": \"ESNext\", \"moduleResolution\": \"Node\", \"resolveJsonModule\": true, \"isolatedModules\": true, \"noEmit\": true, \"jsx\": \"react-jsx\" }, \"include\": [\"src\"], \"references\": [{ \"path\": \"./tsconfig.node.json\" }] }",
      "import { defineConfig } from \"vite\";\nimport react from \"@vitejs/plugin-react\";\n\nexport default defineConfig({ plugins: [react()] });",
      "<?php echo \"Webconsole active.\"; ?>",
      "print(\"Python script executed.\")",
      "console.log(\"Hello, World!\");",
      "body { font-family: sans-serif; }",
      "<!DOCTYPE html><html><body><script src=\"/src/index.js\"></script></body></html>",
      "{\n  \"name\": \"vanilla-app\",\n  \"version\": \"1.0.0\"\n}",
      "/** @type {import('tailwindcss').Config} */\nmodule.exports = { content: [\"./src/**/*.{js,jsx,ts,tsx}\"], theme: { extend: {}, }, plugins: [], }",
      "// IndexedDB setup code")
  }

  /** A file under its own name. */
  function FileEntry(name: string, content: string): Entry {
    Entry(name, File(name, content))
  }

  /** A directory under its own name. */
  function DirEntry(name: string, children: seq<Entry>): Entry {
    Entry(name, Directory(name, children))
  }

  /** `REACT_VITE_FS`. */
  function ReactViteFs(x: SeedTexts): FsNode {
    Directory("/", [
      DirEntry("public", [FileEntry("vite.svg", x.viteSvg)]),
      DirEntry("src", ReactSrc(x)),
      FileEntry(".gitignore", x.gitignore),
      FileEntry("index.html", x.reactIndexHtml),
      FileEntry("package.json", x.reactPackageJson),
      FileEntry("tsconfig.json", x.tsconfigJson),
      FileEntry("vite.config.js", x.viteConfigJs),
      FileEntry("webconsole.php", x.webconsolePhp),
      FileEntry("script.py", x.scriptPy)])
  }

  /** The `src` directory of the React + Vite tree. */
  function ReactSrc(x: SeedTexts): seq<Entry> {
    [ DirEntry("components", []),
      FileEntry("App.css", x.appCss),
      FileEntry("App.tsx", x.appTsx),
      FileEntry("index.css", x.indexCss),
      FileEntry("main.tsx", x.mainTsx)]
  }

  /** `VANILLA_FS`. */
  function VanillaFs(x: SeedTexts): FsNode {
    Directory("/", [
      DirEntry("src", [FileEntry("index.js", x.indexJs), FileEntry("styles.css", x.stylesCss)]),
      FileEntry("index.html", x.vanillaIndexHtml),
      FileEntry("package.json", x.vanillaPackageJson)])
  }

  const TailwindName: string := "tailwind.config.js"
  const DbName: string := "db.js"

  /** The Tailwind configuration added at the root. */
  function TailwindFile(x: SeedTexts): FsNode {
    File(TailwindName, x.tailwindConfigJs)
  }

  /** The IndexedDB module added to `src`. */
  function DbFile(x: SeedTexts): FsNode {
    File(DbName, x.dbJs)
  }

  // ---------------------------------------------------------------------------
  // createInitialFileSystem

  /** The template chosen by the base: React + Vite when its name contains `REACT`; the copy is the value itself. */
  function BaseTree(t: Templates, x: SeedTexts): FsNode {
    if Contains(t.base, "REACT") then ReactViteFs(x) else VanillaFs(x)
  }

  /**
   * The add-ons put into a fresh copy: the Tailwind configuration at the
   * root when `ui` includes `TAILWIND`, then the IndexedDB module in `src`
   * when `datastore` includes `IndexedDB` and the tree has a `src`
   * directory.
   */
  function AddOns(base: FsNode, t: Templates, x: SeedTexts): FsNode {
    AddDb(AddTailwind(base, t, x), t, x)
  }

  /** The first add-on: the Tailwind configuration into the root's children, when `ui` includes `TAILWIND`. */
  function AddTailwind(fs: FsNode, t: Templates, x: SeedTexts): FsNode {
    if "TAILWIND" in t.ui then ModifyAt(fs, [], AddEntry(TailwindName, TailwindFile(x))) else fs
  }

  /** The second add-on: the IndexedDB module into `src`'s children, when `datastore` includes `IndexedDB`. */
  function AddDb(fs: FsNode, t: Templates, x: SeedTexts): FsNode {
    if "IndexedDB" in t.datastore then ModifyAt(fs, ["src"], AddEntry(DbName, DbFile(x))) else fs
  }

  /** `createInitialFileSystem(templates)`. */
  function InitialFileSystem(t: Templates, x: SeedTexts): FsNode {
    AddOns(BaseTree(t, x), t, x)
  }

  /** The seeding steps applied to a fresh copy, assigning into its `children` objects in place. */
  method CreateInitialFileSystem(t: Templates, x: SeedTexts) returns (fs: FsNode)
    ensures fs == InitialFileSystem(t, x)
  {
    if Contains(t.base, "REACT") {
      fs := ReactViteFs(x);
    } else {
      fs := VanillaFs(x);
    }
    var base := fs;
    AddAtRoot(base, TailwindFile(x));
    if "TAILWIND" in t.ui && fs.Directory? {
      fs := fs.(children := Put(fs.children, TailwindName, TailwindFile(x)));
    }
    var styled := fs;
    AddToSrc(styled, DbFile(x));
    if "IndexedDB" in t.datastore && fs.Directory? {
      var src := Find(fs.children, "src");
      if src.Some? && src.value.Directory? {
        fs := fs.(children := Put(fs.children, "src", src.value.(children := Put(src.value.children, DbName, DbFile(x)))));
      }
    }
  }

  /** Putting a child into the root's `children` object, as the update at the empty path does. */
  lemma AddAtRoot(fs: FsNode, node: FsNode)
    ensures ModifyAt(fs, [], AddEntry(node.name, node))
         == if fs.Directory? then fs.(children := Put(fs.children, node.name, node)) else fs
  {
  }

  /** Putting a child into `src`'s `children` object, as the update at `src` does; without a `src` directory nothing changes. */
  lemma AddToSrc(fs: FsNode, node: FsNode)
    ensures ModifyAt(fs, ["src"], AddEntry(node.name, node))
         == if fs.Directory? && IsDirectory(Find(fs.children, "src"))
            then fs.(children := Put(fs.children, "src", Find(fs.children, "src").value.(children := Put(Find(fs.children, "src").value.children, node.name, node))))
            else fs
  {
    if fs.Directory? && Find(fs.children, "src").Some? {
      var src := Find(fs.children, "src").value;
      assert ["src"][1..] == [];
      if !src.Directory? {
        PutExisting(fs.children, "src", src);
      }
    }
  }

  // ---------------------------------------------------------------------------
  // Lemmas: the templates are valid roots

  lemma FileEntryWellFormed(name: string, content: string)
    requires ValidName(name)
    ensures EntryWellFormed(FileEntry(name, content))
  {
  }

  lemma DirEntryWellFormed(name: string, children: seq<Entry>)
    requires ValidName(name) && ChildrenWellFormed(children)
    ensures EntryWellFormed(DirEntry(name, children))
  {
  }

  lemma Children2(a: Entry, b: Entry)
    requires EntryWellFormed(a) && EntryWellFormed(b) && a.key != b.key
    ensures ChildrenWellFormed([a, b])
  {
  }

  lemma Children3(a: Entry, b: Entry, c: Entry)
    requires EntryWellFormed(a) && EntryWellFormed(b) && EntryWellFormed(c)
    requires a.key != b.key && a.key != c.key && b.key != c.key
    ensures ChildrenWellFormed([a, b, c])
  {
  }

  lemma Children5(a: Entry, b: Entry, c: Entry, d: Entry, e: Entry)
    requires EntryWellFormed(a) && EntryWellFormed(b) && EntryWellFormed(c) && EntryWellFormed(d) && EntryWellFormed(e)
    requires a.key != b.key && a.key != c.key && a.key != d.key && a.key != e.key
    requires b.key != c.key && b.key != d.key && b.key != e.key
    requires c.key != d.key && c.key != e.key && d.key != e.key
    ensures ChildrenWellFormed([a, b, c, d, e])
  {
  }

  /** Well-formed children with disjoint keys stay well formed side by side. */
  lemma AppendWellFormed(a: seq<Entry>, b: seq<Entry>)
    requires ChildrenWellFormed(a) && ChildrenWellFormed(b)
    requires forall i, j | 0 <= i < |a| && 0 <= j < |b| :: a[i].key != b[j].key
    ensures ChildrenWellFormed(a + b)
  {
    var r := a + b;
    forall i | 0 <= i < |r| ensures EntryWellFormed(r[i]) {
      if i < |a| {
        assert r[i] == a[i];
      } else {
        assert r[i] == b[i - |a|];
      }
    }
  }

  lemma ReactSrcWellFormed(x: SeedTexts)
    ensures ChildrenWellFormed(ReactSrc(x))
  {
    assert EntryWellFormed(DirEntry("components", []));
    FileEntryWellFormed("App.css", x.appCss);
    FileEntryWellFormed("App.tsx", x.appTsx);
    FileEntryWellFormed("index.css", x.indexCss);
    FileEntryWellFormed("main.tsx", x.mainTsx);
    Children5(DirEntry("components", []), FileEntry("App.css", x.appCss), FileEntry("App.tsx", x.appTsx),
      FileEntry("index.css", x.indexCss), FileEntry("main.tsx", x.mainTsx));
  }

  lemma ReactFoldersWellFormed(x: SeedTexts)
    ensures ChildrenWellFormed([DirEntry("public", [FileEntry("vite.svg", x.viteSvg)]), DirEntry("src", ReactSrc(x)), FileEntry(".gitignore", x.gitignore)])
  {
    ReactSrcWellFormed(x);
    DirEntryWellFormed("src", ReactSrc(x));
    FileEntryWellFormed("vite.svg", x.viteSvg);
    assert ChildrenWellFormed([FileEntry("vite.svg", x.viteSvg)]);
    DirEntryWellFormed("public", [FileEntry("vite.svg", x.viteSvg)]);
    FileEntryWellFormed(".gitignore", x.gitignore);
    Children3(DirEntry("public", [FileEntry("vite.svg", x.viteSvg)]), DirEntry("src", ReactSrc(x)), FileEntry(".gitignore", x.gitignore));
  }

  lemma ReactConfigWellFormed(x: SeedTexts)
    ensures ChildrenWellFormed([FileEntry("index.html", x.reactIndexHtml), FileEntry("package.json", x.reactPackageJson), FileEntry("tsconfig.json", x.tsconfigJson)])
  {
    FileEntryWellFormed("index.html", x.reactIndexHtml);
    FileEntryWellFormed("package.json", x.reactPackageJson);
    FileEntryWellFormed("tsconfig.json", x.tsconfigJson);
    Children3(FileEntry("index.html", x.reactIndexHtml), FileEntry("package.json", x.reactPackageJson), FileEntry("tsconfig.json", x.tsconfigJson));
  }

  lemma ReactScriptsWellFormed(x: SeedTexts)
    ensures ChildrenWellFormed([FileEntry("vite.config.js", x.viteConfigJs), FileEntry("webconsole.php", x.webconsolePhp), FileEntry("script.py", x.scriptPy)])
  {
    FileEntryWellFormed("vite.config.js", x.viteConfigJs);
    FileEntryWellFormed("webconsole.php", x.webconsolePhp);
    FileEntryWellFormed("script.py", x.scriptPy);
    Children3(FileEntry("vite.config.js", x.viteConfigJs), FileEntry("webconsole.php", x.webconsolePhp), FileEntry("script.py", x.scriptPy));
  }

  /** The React + Vite tree is a valid root, whatever its files hold: every key is its child's name and occurs once. */
  lemma ReactValid(x: SeedTexts)
    ensures ValidRoot(ReactViteFs(x))
  {
    var folders := [DirEntry("public", [FileEntry("vite.svg", x.viteSvg)]), DirEntry("src", ReactSrc(x)), FileEntry(".gitignore", x.gitignore)];
    var config := [FileEntry("index.html", x.reactIndexHtml), FileEntry("package.json", x.reactPackageJson), FileEntry("tsconfig.json", x.tsconfigJson)];
    var scripts := [FileEntry("vite.config.js", x.viteConfigJs), FileEntry("webconsole.php", x.webconsolePhp), FileEntry("script.py", x.scriptPy)];
    ReactFoldersWellFormed(x);
    ReactConfigWellFormed(x);
    ReactScriptsWellFormed(x);
    AppendWellFormed(folders, config);
    AppendWellFormed(folders + config, scripts);
    assert ReactViteFs(x).children == folders + config + scripts;
  }

  /** The vanilla tree is a valid root, whatever its files hold. */
  lemma VanillaValid(x: SeedTexts)
    ensures ValidRoot(VanillaFs(x))
  {
    FileEntryWellFormed("index.js", x.indexJs);
    FileEntryWellFormed("styles.css", x.stylesCss);
    Children2(FileEntry("index.js", x.indexJs), FileEntry("styles.css", x.stylesCss));
    DirEntryWellFormed("src", [FileEntry("index.js", x.indexJs), FileEntry("styles.css", x.stylesCss)]);
    FileEntryWellFormed("index.html", x.vanillaIndexHtml);
    FileEntryWellFormed("package.json", x.vanillaPackageJson);
    Children3(DirEntry("src", [FileEntry("index.js", x.indexJs), FileEntry("styles.css", x.stylesCss)]),
      FileEntry("index.html", x.vanillaIndexHtml), FileEntry("package.json", x.vanillaPackageJson));
  }

  // ---------------------------------------------------------------------------
  // Lemmas: what the templates hold

  /** The root of the React + Vite tree in three runs: folders, configuration and scripts. */
  lemma ReactRuns(x: SeedTexts)
    ensures ReactViteFs(x).children
         == [DirEntry("public", [FileEntry("vite.svg", x.viteSvg)]), DirEntry("src", ReactSrc(x)), FileEntry(".gitignore", x.gitignore)]
          + ([FileEntry("index.html", x.reactIndexHtml), FileEntry("package.json", x.reactPackageJson), FileEntry("tsconfig.json", x.tsconfigJson)]
          + [FileEntry("vite.config.js", x.viteConfigJs), FileEntry("webconsole.php", x.webconsolePhp), FileEntry("script.py", x.scriptPy)])
  {
  }

  /** The keys of the React + Vite root, in order. */
  lemma ReactKeys(x: SeedTexts)
    ensures Keys(ReactViteFs(x).children)
         == ["public", "src", ".gitignore", "index.html", "package.json", "tsconfig.json", "vite.config.js", "webconsole.php", "script.py"]
  {
    var folders := [DirEntry("public", [FileEntry("vite.svg", x.viteSvg)]), DirEntry("src", ReactSrc(x)), FileEntry(".gitignore", x.gitignore)];
    var config := [FileEntry("index.html", x.reactIndexHtml), FileEntry("package.json", x.reactPackageJson), FileEntry("tsconfig.json", x.tsconfigJson)];
    var scripts := [FileEntry("vite.config.js", x.viteConfigJs), FileEntry("webconsole.php", x.webconsolePhp), FileEntry("script.py", x.scriptPy)];
    ReactRuns(x);
    KeysAppend(config, scripts);
    KeysAppend(folders, config + scripts);
  }

  /** The React + Vite root holds each key once. */
  lemma ReactDistinct(x: SeedTexts)
    ensures DistinctKeys(ReactViteFs(x).children)
  {
  }

  /** The React + Vite root's `src` directory. */
  lemma ReactSrcAt(x: SeedTexts)
    ensures Find(ReactViteFs(x).children, "src") == Some(Directory("src", ReactSrc(x)))
  {
    ReactDistinct(x);
    FindAt(ReactViteFs(x).children, 1);
  }

  /** The keys of the React + Vite `src` directory, in order. */
  lemma ReactSrcKeys(x: SeedTexts)
    ensures Keys(ReactSrc(x)) == ["components", "App.css", "App.tsx", "index.css", "main.tsx"]
  {
  }

  /** The React + Vite root's two runnable scripts. */
  lemma ReactScripts(x: SeedTexts)
    ensures Find(ReactViteFs(x).children, "webconsole.php") == Some(File("webconsole.php", x.webconsolePhp))
    ensures Find(ReactViteFs(x).children, "script.py") == Some(File("script.py", x.scriptPy))
  {
    ReactDistinct(x);
    FindAt(ReactViteFs(x).children, 7);
    FindAt(ReactViteFs(x).children, 8);
  }

  /** The vanilla root: its keys in order and its `src` directory. */
  lemma VanillaShape(x: SeedTexts)
    ensures Keys(VanillaFs(x).children) == ["src", "index.html", "package.json"]
    ensures Find(VanillaFs(x).children, "src") == Some(Directory("src", [FileEntry("index.js", x.indexJs), FileEntry("styles.css", x.stylesCss)]))
    ensures Keys(Find(VanillaFs(x).children, "src").value.children) == ["index.js", "styles.css"]
  {
  }

  /**
   * A tree the add-ons can be put into: a directory with a `src` directory,
   * holding neither the Tailwind configuration nor the IndexedDB module yet.
   */
  predicate Seedable(fs: FsNode) {
    && fs.Directory?
    && TailwindName !in Keys(fs.children)
    && IsDirectory(Find(fs.children, "src"))
    && DbName !in Keys(Find(fs.children, "src").value.children)
  }

  lemma ReactSeedable(x: SeedTexts)
    ensures Seedable(ReactViteFs(x))
  {
    ReactKeys(x);
    ReactSrcAt(x);
    ReactSrcKeys(x);
  }

  lemma VanillaSeedable(x: SeedTexts)
    ensures Seedable(VanillaFs(x))
  {
    VanillaShape(x);
  }

  /** The vanilla root has neither of the runnable scripts. */
  lemma VanillaScripts(x: SeedTexts)
    ensures Find(VanillaFs(x).children, "webconsole.php") == None
    ensures Find(VanillaFs(x).children, "script.py") == None
  {
    VanillaShape(x);
  }

  /** Both templates can take the add-ons; the two scripts are exactly in the React + Vite one. */
  lemma BaseShape(t: Templates, x: SeedTexts)
    ensures Seedable(BaseTree(t, x))
    ensures Contains(t.base, "REACT") ==>
      && Find(BaseTree(t, x).children, "webconsole.php") == Some(File("webconsole.php", x.webconsolePhp))
      && Find(BaseTree(t, x).children, "script.py") == Some(File("script.py", x.scriptPy))
    ensures !Contains(t.base, "REACT") ==>
      Find(BaseTree(t, x).children, "webconsole.php") == None && Find(BaseTree(t, x).children, "script.py") == None
  {
    if Contains(t.base, "REACT") {
      ReactSeedable(x);
      ReactScripts(x);
    } else {
      VanillaSeedable(x);
      VanillaScripts(x);
    }
  }

  // ---------------------------------------------------------------------------
  // Lemmas: the add-ons

  /** Root entries other than the Tailwind configuration and `src` are those of the template. */
  lemma AddOnsElsewhere(base: FsNode, t: Templates, x: SeedTexts, k: string)
    requires k != TailwindName && k != "src"
    ensures NodeAt(AddOns(base, t, x), [k]) == NodeAt(base, [k])
  {
    var styled := AddTailwind(base, t, x);
    if "IndexedDB" in t.datastore {
      assert [k][..1] == [k];
      ModifyElsewhere(styled, ["src"], [k], AddEntry(DbName, DbFile(x)));
    }
    if "TAILWIND" in t.ui {
      AddAtRoot(base, TailwindFile(x));
      NodeAtChild(styled, k);
      NodeAtChild(base, k);
      if base.Directory? {
        FindPut(base.children, TailwindName, TailwindFile(x), k);
      }
    }
  }

  /** The root gains the Tailwind configuration, last, exactly when `ui` includes `TAILWIND`. */
  lemma AddOnsTailwind(base: FsNode, t: Templates, x: SeedTexts)
    requires Seedable(base)
    ensures AddOns(base, t, x).Directory?
    ensures NodeAt(AddOns(base, t, x), [TailwindName]) == if "TAILWIND" in t.ui then Some(TailwindFile(x)) else None
    ensures Keys(AddOns(base, t, x).children)
         == Keys(base.children) + if "TAILWIND" in t.ui then [TailwindName] else []
  {
    TailwindStep(base, t, x);
    DbKeepsRoot(AddTailwind(base, t, x), t, x);
  }

  /** The Tailwind step appends the configuration to a root without one. */
  lemma TailwindStep(base: FsNode, t: Templates, x: SeedTexts)
    requires Seedable(base)
    ensures AddTailwind(base, t, x).Directory?
    ensures NodeAt(AddTailwind(base, t, x), [TailwindName]) == if "TAILWIND" in t.ui then Some(TailwindFile(x)) else None
    ensures Keys(AddTailwind(base, t, x).children)
         == Keys(base.children) + if "TAILWIND" in t.ui then [TailwindName] else []
  {
    AddAtRoot(base, TailwindFile(x));
    NodeAtChild(AddTailwind(base, t, x), TailwindName);
    FindPut(base.children, TailwindName, TailwindFile(x), TailwindName);
  }

  /** The IndexedDB step keeps the root's keys and its Tailwind entry. */
  lemma DbKeepsRoot(fs: FsNode, t: Templates, x: SeedTexts)
    requires fs.Directory?
    ensures AddDb(fs, t, x).Directory?
    ensures NodeAt(AddDb(fs, t, x), [TailwindName]) == NodeAt(fs, [TailwindName])
    ensures Keys(AddDb(fs, t, x).children) == Keys(fs.children)
  {
    if "IndexedDB" in t.datastore {
      assert [TailwindName][..1] == [TailwindName];
      ModifyElsewhere(fs, ["src"], [TailwindName], AddEntry(DbName, DbFile(x)));
      if IsDirectory(NodeAt(fs, [])) {
        ModifyAncestors(fs, ["src"], [], AddEntry(DbName, DbFile(x)));
      }
    }
  }

  /** The Tailwind step leaves `src` as the template has it. */
  lemma TailwindKeepsSrc(base: FsNode, t: Templates, x: SeedTexts)
    requires Seedable(base)
    ensures AddTailwind(base, t, x).Directory?
    ensures NodeAt(AddTailwind(base, t, x), ["src"]) == NodeAt(base, ["src"]) == Find(base.children, "src")
  {
    AddAtRoot(base, TailwindFile(x));
    NodeAtChild(AddTailwind(base, t, x), "src");
    NodeAtChild(base, "src");
    if "TAILWIND" in t.ui {
      FindPut(base.children, TailwindName, TailwindFile(x), "src");
    }
  }

  /** Under a `src` directory, the IndexedDB step sets the module's entry and no other. */
  lemma DbStepInSrc(fs: FsNode, t: Templates, x: SeedTexts, k: string)
    requires IsDirectory(NodeAt(fs, ["src"]))
    ensures NodeAt(AddDb(fs, t, x), ["src", k])
         == if k == DbName && "IndexedDB" in t.datastore then Some(DbFile(x)) else NodeAt(fs, ["src", k])
  {
    var src := NodeAt(fs, ["src"]).value;
    NodeAtConcat(AddDb(fs, t, x), ["src"], [k]);
    NodeAtConcat(fs, ["src"], [k]);
    if "IndexedDB" in t.datastore {
      ModifyTarget(fs, ["src"], AddEntry(DbName, DbFile(x)));
      NodeAtChild(Directory(src.name, Put(src.children, DbName, DbFile(x))), k);
      FindPut(src.children, DbName, DbFile(x), k);
    }
    NodeAtChild(src, k);
  }

  /** The IndexedDB step appends the module's key to a `src` directory without one. */
  lemma DbStepKeys(fs: FsNode, t: Templates, x: SeedTexts)
    requires IsDirectory(NodeAt(fs, ["src"]))
    requires DbName !in Keys(NodeAt(fs, ["src"]).value.children)
    ensures IsDirectory(NodeAt(AddDb(fs, t, x), ["src"]))
    ensures Keys(NodeAt(AddDb(fs, t, x), ["src"]).value.children)
         == Keys(NodeAt(fs, ["src"]).value.children) + if "IndexedDB" in t.datastore then [DbName] else []
  {
    if "IndexedDB" in t.datastore {
      ModifyTarget(fs, ["src"], AddEntry(DbName, DbFile(x)));
    }
  }

  /** `src` gains the IndexedDB module, last, exactly when `datastore` includes `IndexedDB`; its other entries stay. */
  lemma AddOnsDb(base: FsNode, t: Templates, x: SeedTexts)
    requires Seedable(base)
    ensures IsDirectory(NodeAt(AddOns(base, t, x), ["src"]))
    ensures NodeAt(AddOns(base, t, x), ["src", DbName]) == if "IndexedDB" in t.datastore then Some(DbFile(x)) else None
    ensures Keys(NodeAt(AddOns(base, t, x), ["src"]).value.children)
         == Keys(Find(base.children, "src").value.children) + if "IndexedDB" in t.datastore then [DbName] else []
    ensures forall k | k != DbName :: NodeAt(AddOns(base, t, x), ["src", k]) == NodeAt(base, ["src", k])
  {
    var styled := AddTailwind(base, t, x);
    TailwindKeepsSrc(base, t, x);
    DbStepKeys(styled, t, x);
    forall k ensures NodeAt(AddOns(base, t, x), ["src", k])
                  == if k == DbName && "IndexedDB" in t.datastore then Some(DbFile(x)) else NodeAt(base, ["src", k])
    {
      DbStepInSrc(styled, t, x, k);
      NodeAtConcat(styled, ["src"], [k]);
      NodeAtConcat(base, ["src"], [k]);
    }
    NodeAtConcat(base, ["src"], [DbName]);
    NodeAtChild(Find(base.children, "src").value, DbName);
  }

  /** The names of the two add-ons are valid names. */
  lemma AddOnNames()
    ensures ValidName(TailwindName) && ValidName(DbName)
  {
  }

  /** The add-ons keep a valid root valid. */
  lemma AddOnsValid(base: FsNode, t: Templates, x: SeedTexts)
    requires ValidRoot(base)
    ensures ValidRoot(AddOns(base, t, x))
  {
    var styled := AddTailwind(base, t, x);
    AddOnNames();
    if "TAILWIND" in t.ui {
      AddChildValid(base, [], TailwindFile(x));
    }
    assert ValidRoot(styled);
    if "IndexedDB" in t.datastore {
      AddChildValid(styled, ["src"], DbFile(x));
    }
  }

  // ---------------------------------------------------------------------------
  // Lemmas: createInitialFileSystem

  /** Every seeded filesystem is a valid root: each key is its child's name and occurs once. */
  lemma InitialValid(t: Templates, x: SeedTexts)
    ensures ValidRoot(InitialFileSystem(t, x))
  {
    if Contains(t.base, "REACT") {
      ReactValid(x);
    } else {
      VanillaValid(x);
    }
    AddOnsValid(BaseTree(t, x), t, x);
  }

  /** `webconsole.php` and `script.py` are at the root exactly when the base names `REACT`, with the template's contents. */
  lemma InitialTemplate(t: Templates, x: SeedTexts)
    ensures NodeAt(InitialFileSystem(t, x), ["webconsole.php"]).Some? <==> Contains(t.base, "REACT")
    ensures NodeAt(InitialFileSystem(t, x), ["script.py"]).Some? <==> Contains(t.base, "REACT")
    ensures Contains(t.base, "REACT") ==>
      && NodeAt(InitialFileSystem(t, x), ["webconsole.php"]) == Some(File("webconsole.php", x.webconsolePhp))
      && NodeAt(InitialFileSystem(t, x), ["script.py"]) == Some(File("script.py", x.scriptPy))
  {
    var base := BaseTree(t, x);
    BaseShape(t, x);
    AddOnsElsewhere(base, t, x, "webconsole.php");
    AddOnsElsewhere(base, t, x, "script.py");
    NodeAtChild(base, "webconsole.php");
    NodeAtChild(base, "script.py");
  }

  /**
   * The Tailwind configuration is at the root exactly when `ui` includes
   * `TAILWIND`, after the template's own entries; no other root entry
   * but `src` differs from the template's.
   */
  lemma InitialTailwind(t: Templates, x: SeedTexts)
    ensures NodeAt(InitialFileSystem(t, x), [TailwindName]) == if "TAILWIND" in t.ui then Some(TailwindFile(x)) else None
    ensures Keys(InitialFileSystem(t, x).children)
         == Keys(BaseTree(t, x).children) + if "TAILWIND" in t.ui then [TailwindName] else []
    ensures forall k | k != TailwindName && k != "src" :: NodeAt(InitialFileSystem(t, x), [k]) == NodeAt(BaseTree(t, x), [k])
  {
    BaseShape(t, x);
    AddOnsTailwind(BaseTree(t, x), t, x);
    forall k | k != TailwindName && k != "src" ensures NodeAt(InitialFileSystem(t, x), [k]) == NodeAt(BaseTree(t, x), [k]) {
      AddOnsElsewhere(BaseTree(t, x), t, x, k);
    }
  }

  /**
   * `src/db.js` exists exactly when `datastore` includes `IndexedDB`: both
   * templates have a `src` directory, which gains that module after its
   * own entries and keeps them.
   */
  lemma InitialDb(t: Templates, x: SeedTexts)
    ensures IsDirectory(NodeAt(BaseTree(t, x), ["src"]))
    ensures IsDirectory(NodeAt(InitialFileSystem(t, x), ["src"]))
    ensures NodeAt(InitialFileSystem(t, x), ["src", DbName]) == if "IndexedDB" in t.datastore then Some(DbFile(x)) else None
    ensures Keys(NodeAt(InitialFileSystem(t, x), ["src"]).value.children)
         == Keys(NodeAt(BaseTree(t, x), ["src"]).value.children) + if "IndexedDB" in t.datastore then [DbName] else []
    ensures forall k | k != DbName :: NodeAt(InitialFileSystem(t, x), ["src", k]) == NodeAt(BaseTree(t, x), ["src", k])
  {
    BaseShape(t, x);
    NodeAtChild(BaseTree(t, x), "src");
    AddOnsDb(BaseTree(t, x), t, x);
  }
}
