/**
 * The System Operator's list of containers (components/SystemOperatorView.tsx,
 * lines 102-132): the record a new build starts from, and the handlers that
 * append, replace and remove containers by id.
 */
module Containers {
  import opened Text
  import opened Types
  import opened Vfs
  import opened Seeding
  import Shell

  /**
   * The container `handleInitiateBuild` creates around a seeded filesystem:
   * attributed to the operator, `initialized`, with one `create` entry
   * recording the chosen templates, and the root as its current path. The
   * random id and the two timestamps are parameters.
   */
  function NewContainer(id: string, prompt: string, t: Templates, fs: FsNode, createdAt: string, at: string): Container {
    Container(
      id := id,
      operator := Operator,
      prompt := prompt,
      chosenTemplates := t,
      status := Initialized,
      createdAt := createdAt,
      history := [HandoverEntry(Create, Operator, at, TemplateDetails(t))],
      filesystem := fs,
      currentPath := "/")
  }

  /**
   * `handleInitiateBuild`: a blank prompt changes nothing, nor does a prompt
   * the parser rejects (`parsed` is `None`, the error branch); otherwise a
   * container around `createInitialFileSystem` of the parsed templates is
   * appended. The templates' file contents are `x` (`SourceTexts()` in the
   * application).
   */
  function InitiateBuild(list: seq<Container>, prompt: string, parsed: Option<Templates>,
                         id: string, createdAt: string, at: string, x: SeedTexts): seq<Container>
  {
    if Trim(prompt) == "" || parsed.None? then list
    else list + [NewContainer(id, prompt, parsed.value, InitialFileSystem(parsed.value, x), createdAt, at)]
  }

  /** `handleUpdateContainer`: every container with the updated one's id is replaced by it, in place. */
  function UpdateContainer(list: seq<Container>, updated: Container): seq<Container>
    decreases |list|
  {
    if |list| == 0 then []
    else [if list[0].id == updated.id then updated else list[0]] + UpdateContainer(list[1..], updated)
  }

  /** `handleDeleteContainer`: the containers whose id differs, in their order. */
  function DeleteContainer(list: seq<Container>, id: string): seq<Container>
    decreases |list|
  {
    if |list| == 0 then []
    else if list[0].id == id then DeleteContainer(list[1..], id)
    else [list[0]] + DeleteContainer(list[1..], id)
  }

  // ---------------------------------------------------------------------------
  // Lemmas

  /**
   * A new container starts `initialized` at the root with exactly one
   * `create` entry, and it satisfies the invariant every terminal command
   * keeps when its filesystem is a valid root.
   */
  lemma NewContainerState(id: string, prompt: string, t: Templates, fs: FsNode, createdAt: string, at: string)
    ensures NewContainer(id, prompt, t, fs, createdAt, at).status == Initialized
    ensures NewContainer(id, prompt, t, fs, createdAt, at).currentPath == "/"
    ensures NewContainer(id, prompt, t, fs, createdAt, at).history == [HandoverEntry(Create, Operator, at, TemplateDetails(t))]
    ensures NewContainer(id, prompt, t, fs, createdAt, at).operator == Operator
    ensures Shell.Valid(NewContainer(id, prompt, t, fs, createdAt, at)) <==> ValidRoot(fs)
  {
    RootNormalized();
    LookupRoot(fs);
  }

  /**
   * A build keeps the containers there are and appends at most one, exactly
   * when the prompt is not blank and was parsed; otherwise the list is left
   * as it is. The new one has the given id and prompt, the parsed templates
   * and the tree seeded from them, and satisfies the terminal's invariant.
   */
  lemma InitiateBuildAppends(list: seq<Container>, prompt: string, parsed: Option<Templates>,
                             id: string, createdAt: string, at: string, x: SeedTexts)
    ensures var r := InitiateBuild(list, prompt, parsed, id, createdAt, at, x);
      && |list| <= |r| <= |list| + 1 && r[..|list|] == list
      && (|r| == |list| + 1 <==> Trim(prompt) != "" && parsed.Some?)
      && (!(Trim(prompt) != "" && parsed.Some?) ==> r == list)
      && (|r| == |list| + 1 ==>
            && r[|list|].id == id && r[|list|].prompt == prompt
            && r[|list|].chosenTemplates == parsed.value
            && r[|list|].filesystem == InitialFileSystem(parsed.value, x)
            && Shell.Valid(r[|list|]))
  {
    if Trim(prompt) != "" && parsed.Some? {
      var fs := InitialFileSystem(parsed.value, x);
      InitialValid(parsed.value, x);
      NewContainerState(id, prompt, parsed.value, fs, createdAt, at);
    }
  }

  /** An update keeps the length, the order and every id; exactly the entries with the updated id are replaced. */
  lemma {:induction false} UpdateReplaces(list: seq<Container>, updated: Container)
    ensures |UpdateContainer(list, updated)| == |list|
    ensures forall i | 0 <= i < |list| ::
      UpdateContainer(list, updated)[i] == if list[i].id == updated.id then updated else list[i]
    ensures forall i | 0 <= i < |list| :: UpdateContainer(list, updated)[i].id == list[i].id
    decreases |list|
  {
    if |list| > 0 {
      UpdateReplaces(list[1..], updated);
      var r := UpdateContainer(list, updated);
      assert forall i | 1 <= i < |list| :: r[i] == UpdateContainer(list[1..], updated)[i - 1];
    }
  }

  /** Updating with a container whose id is not in the list changes nothing. */
  lemma UpdateAbsent(list: seq<Container>, updated: Container)
    requires forall i | 0 <= i < |list| :: list[i].id != updated.id
    ensures UpdateContainer(list, updated) == list
  {
    UpdateReplaces(list, updated);
  }

  /** Updating twice with the same container is updating once. */
  lemma UpdateIdempotent(list: seq<Container>, updated: Container)
    ensures UpdateContainer(UpdateContainer(list, updated), updated) == UpdateContainer(list, updated)
  {
    var once := UpdateContainer(list, updated);
    UpdateReplaces(list, updated);
    UpdateReplaces(once, updated);
  }

  /** The deletion of a run of containers followed by another is the deletions side by side. */
  lemma {:induction false} DeleteConcat(a: seq<Container>, b: seq<Container>, id: string)
    ensures DeleteContainer(a + b, id) == DeleteContainer(a, id) + DeleteContainer(b, id)
    decreases |a|
  {
    if |a| == 0 {
      assert a + b == b;
    } else {
      assert (a + b)[0] == a[0] && (a + b)[1..] == a[1..] + b;
      DeleteConcat(a[1..], b, id);
    }
  }

  /**
   * A deletion removes every container with the id and keeps every other
   * one as often as it was there; with `DeleteConcat` this pins down the
   * order too.
   */
  lemma {:induction false} DeleteRemoves(list: seq<Container>, id: string)
    ensures forall i | 0 <= i < |DeleteContainer(list, id)| :: DeleteContainer(list, id)[i].id != id
    ensures forall c: Container | c.id != id :: multiset(DeleteContainer(list, id))[c] == multiset(list)[c]
    ensures |DeleteContainer(list, id)| <= |list|
    decreases |list|
  {
    if |list| > 0 {
      DeleteRemoves(list[1..], id);
      assert list == [list[0]] + list[1..];
      assert multiset(list) == multiset([list[0]]) + multiset(list[1..]);
    }
  }

  /** A container with the id is dropped; any other is kept. */
  lemma DeleteOne(c: Container, id: string)
    ensures DeleteContainer([c], id) == if c.id == id then [] else [c]
  {
    assert [c][1..] == [];
  }

  /** Deleting twice is deleting once. */
  lemma {:induction false} DeleteIdempotent(list: seq<Container>, id: string)
    ensures DeleteContainer(DeleteContainer(list, id), id) == DeleteContainer(list, id)
    decreases |list|
  {
    if |list| > 0 {
      DeleteIdempotent(list[1..], id);
      if list[0].id != id {
        var rest := DeleteContainer(list[1..], id);
        assert ([list[0]] + rest)[1..] == rest;
      }
    }
  }

  /** A list without the id is left as it is. */
  lemma {:induction false} DeleteAbsent(list: seq<Container>, id: string)
    requires forall i | 0 <= i < |list| :: list[i].id != id
    ensures DeleteContainer(list, id) == list
    decreases |list|
  {
    if |list| > 0 {
      DeleteAbsent(list[1..], id);
      assert list == [list[0]] + list[1..];
    }
  }
}
