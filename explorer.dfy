/**
 * The order in which the file explorer lists a directory's children
 * (components/ContainerCard.tsx, line 268): by type first, then by name,
 * both with a locale comparison. The two type words compare the same in
 * every locale (`directory` before `file`); the order of names is
 * locale-dependent and is a parameter here.
 */
module Explorer {
  import opened Types

  /** The comparison of the two type words: directories first, nodes of one type equal. */
  function TypeOrder(a: FsNode, b: FsNode): int {
    if a.Directory? == b.Directory? then 0 else if a.Directory? then -1 else 1
  }

  /**
   * The comparator passed to `sort`: the type order, and the name order
   * (the result of `localeCompare` on the names) between nodes of one type.
   */
  function Compare(a: FsNode, b: FsNode, nameOrder: (string, string) -> int): (r: int)
    ensures a.Directory? && b.File? ==> r < 0
    ensures a.File? && b.Directory? ==> r > 0
    ensures a.Directory? == b.Directory? ==> r == nameOrder(a.name, b.name)
  {
    var t := TypeOrder(a, b);
    if t != 0 then t else nameOrder(a.name, b.name)
  }

  /** A listing `sort` may return: no later node compares before an earlier one. */
  predicate Sorted(s: seq<FsNode>, nameOrder: (string, string) -> int) {
    forall i, j :: 0 <= i < j < |s| ==> Compare(s[i], s[j], nameOrder) <= 0
  }

  function Directories(s: seq<FsNode>): (r: seq<FsNode>)
    ensures forall i :: 0 <= i < |r| ==> r[i].Directory? && r[i] in s
    decreases |s|
  {
    if |s| == 0 then [] else (if s[0].Directory? then [s[0]] else []) + Directories(s[1..])
  }

  function Files(s: seq<FsNode>): (r: seq<FsNode>)
    ensures forall i :: 0 <= i < |r| ==> r[i].File? && r[i] in s
    decreases |s|
  {
    if |s| == 0 then [] else (if s[0].File? then [s[0]] else []) + Files(s[1..])
  }

  /** A listing of files only has no directories, and its files are itself. */
  lemma {:induction false} OnlyFiles(s: seq<FsNode>)
    requires forall i :: 0 <= i < |s| ==> s[i].File?
    ensures Directories(s) == [] && Files(s) == s
    decreases |s|
  {
    if |s| > 0 {
      OnlyFiles(s[1..]);
      ConsNode(s);
    }
  }

  lemma ConsNode(s: seq<FsNode>)
    requires |s| > 0
    ensures [s[0]] + s[1..] == s
  {
  }

  /**
   * Whatever the name order, a sorted listing shows every directory before
   * every file: it is its directories followed by its files, each in the
   * order the listing has them.
   */
  lemma {:induction false} DirectoriesFirst(s: seq<FsNode>, nameOrder: (string, string) -> int)
    requires Sorted(s, nameOrder)
    ensures s == Directories(s) + Files(s)
    decreases |s|
  {
    if |s| > 0 {
      var rest := s[1..];
      assert Sorted(rest, nameOrder) by {
        forall i, j | 0 <= i < j < |rest| ensures Compare(rest[i], rest[j], nameOrder) <= 0 {
          assert rest[i] == s[i + 1] && rest[j] == s[j + 1];
        }
      }
      ConsNode(s);
      if s[0].Directory? {
        DirectoriesFirst(rest, nameOrder);
      } else {
        forall i | 0 <= i < |rest| ensures rest[i].File? {
          assert Compare(s[0], s[i + 1], nameOrder) <= 0;
        }
        OnlyFiles(rest);
        assert Files(s) == [s[0]] + rest;
      }
    }
  }
}
