/** What the simulated npm life cycle guarantees about status, history and the filesystem. */
module LifecycleProperties {
  import opened Types
  import opened Vfs
  import opened Shell
  import opened Lifecycle

  /** The click moves to the loading status and appends one open entry for the command; nothing else changes. */
  lemma StartedState(c: Container, cmd: NpmCommand, at: string)
    ensures var s := Started(c, cmd, at);
      && s.status == RunOf(cmd).loadingStatus && !Enabled(Install, s.status) && !Enabled(Build, s.status)
      && |s.history| == |c.history| + 1 && s.history[..|c.history|] == c.history
      && s.history[|c.history|] == HandoverEntry(Command, Operator, at, CommandDetails(cmd, None, None))
      && s == c.(status := s.status, history := s.history)
  {
    var s := Started(c, cmd, at);
    assert s.history[..|c.history|] == c.history;
  }

  /**
   * The timer sets the command's next status on success and `error`
   * otherwise, completes the click's entry with the outcome (a message on
   * failure, and on a successful build only), and touches the filesystem
   * only for a successful build.
   */
  lemma FinishedState(c: Container, cmd: NpmCommand, at: string, roll: real)
    ensures var f := Finished(c, cmd, at, roll);
      var e := f.history[|c.history|];
      && f.status == (if Succeeds(cmd, roll) then RunOf(cmd).nextStatus else Error)
      && |f.history| == |c.history| + 1 && f.history[..|c.history|] == c.history
      && e.action == Command && e.at == at && e.details.command == cmd
      && (e.details.outcome == Some(Succeeded) <==> Succeeds(cmd, roll))
      && (e.details.outcome == Some(Failed) <==> !Succeeds(cmd, roll))
      && (e.details.message.None? <==> Succeeds(cmd, roll) && cmd != Build)
      && (!(Succeeds(cmd, roll) && cmd == Build) ==> f.filesystem == c.filesystem)
      && f == c.(status := f.status, filesystem := f.filesystem, history := f.history)
  {
    var f := Finished(c, cmd, at, roll);
    assert f.history[..|c.history|] == c.history;
  }

  /**
   * Every command can end either way for some draw of `Math.random()`: a
   * draw of 0 moves the container to the command's next status, and any
   * draw of 0.95 or more leaves it in `error` with a failed entry and its
   * filesystem untouched.
   */
  lemma BothOutcomes(c: Container, cmd: NpmCommand, at: string, roll: real)
    requires 0.95 <= roll < 1.0
    ensures Finished(c, cmd, at, 0.0).status == RunOf(cmd).nextStatus != Error
    ensures Finished(c, cmd, at, 0.0).history[|c.history|].details.outcome == Some(Succeeded)
    ensures var f := Finished(c, cmd, at, roll);
      && f.status == Error
      && f.history[|c.history|].details.outcome == Some(Failed)
      && f.filesystem == c.filesystem
  {
    FinishedState(c, cmd, at, 0.0);
    FinishedState(c, cmd, at, roll);
  }

  /** Two well-formed entries with different keys make well-formed children. */
  lemma PairWellFormed(a: Entry, b: Entry)
    requires EntryWellFormed(a) && EntryWellFormed(b) && a.key != b.key
    ensures ChildrenWellFormed([a, b])
  {
    ConsWellFormed(b, []);
    assert [b] + [] == [b];
    ConsWellFormed(a, [b]);
    assert [a] + [b] == [a, b];
  }

  /** The `dist` tree is a well-formed entry under its own name. */
  lemma DistWellFormed()
    ensures EntryWellFormed(Entry("dist", DistTree()))
  {
    var d := DistTree();
    var assets := d.children[1].node;
    PairWellFormed(assets.children[0], assets.children[1]);
    PairWellFormed(d.children[0], d.children[1]);
  }

  /** The `dist` tree holds `index.html` and `assets/{index.js,index.css}`, and nothing else at its top. */
  lemma DistContents()
    ensures NodeAt(DistTree(), ["index.html"]) == Some(File("index.html", "<!-- Production Build -->"))
    ensures NodeAt(DistTree(), ["assets", "index.js"]) == Some(File("index.js", "/* Minified JS */"))
    ensures NodeAt(DistTree(), ["assets", "index.css"]) == Some(File("index.css", "/* Minified CSS */"))
    ensures Keys(DistTree().children) == ["index.html", "assets"]
  {
    assert ["assets", "index.js"][1..] == ["index.js"];
    assert ["assets", "index.css"][1..] == ["index.css"];
  }

  /** Below `dist` there is no other name. */
  lemma DistOnly(name: string)
    requires name != "index.html" && name != "assets"
    ensures NodeAt(DistTree(), [name]) == None
  {
  }

  /**
   * Putting a well-formed directory under its own name at the root: the
   * paths below that name lead into it, every other root entry is kept, the
   * key keeps its place or is appended, and the root stays valid.
   */
  lemma PutAtRoot(root: FsNode, name: string, d: FsNode)
    requires ValidRoot(root) && EntryWellFormed(Entry(name, d))
    ensures var fs := ModifyNodeChildren(root, "/", AddEntry(name, d));
      && fs == Directory("/", Put(root.children, name, d))
      && (forall q :: NodeAt(fs, [name] + q) == NodeAt(d, q))
      && (forall k :: k != name ==> Find(fs.children, k) == Find(root.children, k))
      && Keys(fs.children) == Keys(root.children) + (if name in Keys(root.children) then [] else [name])
      && ValidRoot(fs)
  {
    var fs := ModifyNodeChildren(root, "/", AddEntry(name, d));
    RootNormalized();
    assert fs == Directory("/", Put(root.children, name, d));
    PutWellFormed(root.children, name, d);
    FindPut(root.children, name, d, name);
    forall q ensures NodeAt(fs, [name] + q) == NodeAt(d, q) {
      assert ([name] + q)[1..] == q;
    }
    forall k | k != name ensures Find(fs.children, k) == Find(root.children, k) {
      FindPut(root.children, name, d, k);
    }
  }

  /**
   * A successful build puts the `dist` tree at the root, in place of an
   * earlier one or as a new last entry, and leaves every other root entry
   * and the root's validity as they were.
   */
  lemma BuildCreatesDist(c: Container, at: string, roll: real)
    requires ValidRoot(c.filesystem) && Succeeds(Build, roll)
    ensures var fs := Finished(c, Build, at, roll).filesystem;
      && fs.Directory? && fs.name == "/"
      && (forall q :: NodeAt(fs, ["dist"] + q) == NodeAt(DistTree(), q))
      && (forall k :: k != "dist" ==> Find(fs.children, k) == Find(c.filesystem.children, k))
      && Keys(fs.children) == Keys(c.filesystem.children) + (if "dist" in Keys(c.filesystem.children) then [] else ["dist"])
      && ValidRoot(fs)
  {
    DistWellFormed();
    PutAtRoot(c.filesystem, "dist", DistTree());
  }

  /** After a successful build, the paths below `/dist` are the paths of the `dist` tree. */
  lemma BuildPaths(c: Container, at: string, roll: real)
    requires ValidRoot(c.filesystem) && Succeeds(Build, roll)
    ensures forall q :: NodeAt(Finished(c, Build, at, roll).filesystem, ["dist"] + q) == NodeAt(DistTree(), q)
  {
    BuildCreatesDist(c, at, roll);
  }

  /**
   * A rebuild replaces `dist` wholesale: a terminal whose current path is a
   * directory the user made inside `/dist` is left on a path that no longer
   * exists, so the shell's invariant does not survive the build.
   */
  lemma RebuildOrphansCwd(c: Container, at: string, roll: real, name: string)
    requires Valid(c) && Succeeds(Build, roll)
    requires Segments(c.currentPath) == ["dist", name] && name != "index.html" && name != "assets"
    ensures !Valid(Finished(c, Build, at, roll))
  {
    var fs := Finished(c, Build, at, roll).filesystem;
    BuildPaths(c, at, roll);
    DistOnly(name);
    assert NodeAt(fs, ["dist"] + [name]) == None;
    assert ["dist"] + [name] == Segments(c.currentPath);
  }

  /** A build leaves the current path valid unless it lies inside `/dist`. */
  lemma BuildKeepsCwd(c: Container, at: string, roll: real)
    requires Valid(c) && (Segments(c.currentPath) == [] || Segments(c.currentPath)[0] != "dist")
    ensures Valid(Finished(c, Build, at, roll))
  {
    if Succeeds(Build, roll) {
      var root := c.filesystem;
      var fs := Finished(c, Build, at, roll).filesystem;
      var p := Segments(c.currentPath);
      BuildCreatesDist(c, at, roll);
      if p != [] {
        assert NodeAt(fs, p) == NodeAt(root, p) by {
          FindPut(root.children, "dist", DistTree(), p[0]);
        }
      }
    }
  }

  /** The statuses a container rests in between runs. */
  predicate Settled(s: Status) {
    s == Initialized || s == Success || s == Running || s == Error
  }

  /**
   * Clicks waited out keep the container settled and its current path; once
   * `running` or `error`, every button is disabled and nothing changes any
   * more; and the history only grows.
   */
  lemma {:induction false} SessionSettled(c: Container, clicks: seq<Click>)
    requires Settled(c.status)
    ensures var s := Session(c, clicks);
      && Settled(s.status) && s.currentPath == c.currentPath
      && |c.history| <= |s.history| && s.history[..|c.history|] == c.history
      && (c.status == Running || c.status == Error ==> s == c)
    decreases |clicks|
  {
    if |clicks| > 0 {
      var k := clicks[0];
      var next := if Enabled(k.cmd, c.status) then Finished(c, k.cmd, k.at, k.roll) else c;
      FinishedState(c, k.cmd, k.at, k.roll);
      SessionSettled(next, clicks[1..]);
      var s := Session(c, clicks);
      assert s.history[..|c.history|] == s.history[..|next.history|][..|c.history|];
    }
  }
}
