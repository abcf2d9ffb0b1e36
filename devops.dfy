/**
 * Package devops: Azure DevOps logging commands written to the real standard
 * output, which stays the process's stdout while test output is captured:
 * collapsible log groups kept on a stack, artifact uploads and task progress.
 */
module Devops {
  import opened Common

  /** realStdOut: everything written to it so far. */
  class Stdout {
    var text: string

    constructor ()
      ensures text == ""
    {
      text := "";
    }

    method Write(s: string)
      modifies this
      ensures text == old(text) + s
    {
      text := text + s;
    }
  }

  /* ---------------------------------------------------------------------- */
  /* Log groups                                                             */
  /* ---------------------------------------------------------------------- */

  /** The line that closes one group (Fprintln adds the newline). */
  const EndGroupLine: string := "##[endgroup]\n"

  /** The line that opens a group. */
  function GroupLine(name: string): string
  {
    "##[group]" + name + "\n"
  }

  /** `s` written `n` times in a row. */
  function Repeat(s: string, n: nat): (r: string)
    ensures |r| == n * |s|
  {
    if n == 0 then "" else Repeat(s, n - 1) + s
  }

  /** Every group on the stack records its own position, as OpenGroup sets it. */
  predicate Positioned(groups: seq<Group>)
  {
    forall k :: 0 <= k < |groups| ==> groups[k].index == k
  }

  /** The first position of `g` on the stack (slices.Index, when found). */
  function FirstIndex(groups: seq<Group>, g: Group): (i: nat)
    requires g in groups
    ensures i < |groups| && groups[i] == g && g !in groups[..i]
  {
    if groups[0] == g then 0
    else
      var i := 1 + FirstIndex(groups[1..], g);
      assert groups[..i] == [groups[0]] + groups[1..][..i - 1];
      i
  }

  /** slices.Index: the first position of `g`, or -1. */
  function SliceIndex(groups: seq<Group>, g: Group): (i: int)
    ensures i == -1 <==> g !in groups
  {
    if g in groups then FirstIndex(groups, g) else -1
  }

  /** The stack after closing `g`: cut at the first position of `g`, found by identity. */
  function AfterClose(groups: seq<Group>, g: Group): seq<Group>
  {
    if g in groups then groups[..FirstIndex(groups, g)] else groups
  }

  /** How many endgroup lines closing `g` writes: `g` and every group above it. */
  function Closing(groups: seq<Group>, g: Group): nat
  {
    if g in groups then |groups| - FirstIndex(groups, g) else 0
  }

  /**
   * On a well-formed stack, closing `g` cuts the stack at `g`'s own index
   * and writes one endgroup line for `g` and one for each group above it;
   * the groups below keep their order, and the stack stays well formed.
   */
  lemma CloseCutsAtGroup(groups: seq<Group>, g: Group)
    requires Positioned(groups) && g in groups
    ensures 0 <= g.index < |groups|
    ensures AfterClose(groups, g) == groups[..g.index]
    ensures Closing(groups, g) == |groups| - g.index
    ensures Positioned(AfterClose(groups, g))
  {
    var i := FirstIndex(groups, g);
    assert groups[i].index == i;
  }

  /** Closing the top group removes only that group and writes one endgroup line. */
  lemma CloseTopOnly(groups: seq<Group>)
    requires Positioned(groups) && groups != []
    ensures var top := groups[|groups| - 1];
            AfterClose(groups, top) == groups[..|groups| - 1] && Closing(groups, top) == 1
  {
    CloseCutsAtGroup(groups, groups[|groups| - 1]);
  }

  /** Closing an already-closed group changes nothing and writes nothing. */
  lemma CloseIdempotent(groups: seq<Group>, g: Group)
    ensures AfterClose(AfterClose(groups, g), g) == AfterClose(groups, g)
    ensures Closing(AfterClose(groups, g), g) == 0
  {
    if g in groups {
      var i := FirstIndex(groups, g);
      assert g !in groups[..i];
    }
  }

  /**
   * Groups are found by identity: a group that is not on the stack closes
   * nothing even when its index names a position another group now holds.
   */
  lemma FoundByIdentity(groups: seq<Group>, g: Group, h: Group)
    requires Positioned(groups) && g in groups
    requires h != g && h.index == g.index
    ensures AfterClose(groups, h) == groups && Closing(groups, h) == 0
  {
    var i := FirstIndex(groups, g);
    if h in groups {
      var j := FirstIndex(groups, h);
      assert false;
    }
  }

  /** A log group. Its index is where it was opened; it is looked up by identity. */
  class Group {
    const index: int

    constructor (index: int)
      ensures this.index == index
    {
      this.index := index;
    }

    /**
     * Group.Close: when the group is on the stack, writes an endgroup line for
     * it and for every group above it and cuts the stack below it; otherwise
     * does nothing.
     */
    method Close(stack: GroupStack)
      requires stack.Valid()
      modifies stack, stack.stdout
      ensures stack.groups == AfterClose(old(stack.groups), this)
      ensures stack.stdout.text == old(stack.stdout.text) + Repeat(EndGroupLine, Closing(old(stack.groups), this))
      ensures stack.Valid() && this !in stack.groups
    {
      var groupIndex := SliceIndex(stack.groups, this);
      if groupIndex == -1 {
        return;
      }
      CloseCutsAtGroup(stack.groups, this);
      var groupsToClose := |stack.groups| - groupIndex;
      for i := 0 to groupsToClose
        invariant stack.groups == old(stack.groups)
        invariant stack.stdout.text == old(stack.stdout.text) + Repeat(EndGroupLine, i)
      {
        stack.stdout.Write(EndGroupLine);
      }
      stack.groups := stack.groups[..groupIndex];
    }
  }

  /** The global stack of open groups, and the stdout the commands go to. */
  class GroupStack {
    var groups: seq<Group>
    const stdout: Stdout

    ghost predicate Valid()
      reads this
    {
      Positioned(groups)
    }

    constructor (stdout: Stdout)
      ensures groups == [] && this.stdout == stdout && Valid()
    {
      groups := [];
      this.stdout := stdout;
    }

    /** OpenGroup: pushes a new group on top of the stack and writes its group line. */
    method OpenGroup(name: string) returns (g: Group)
      requires Valid()
      modifies this, stdout
      ensures fresh(g) && g.index == |old(groups)|
      ensures groups == old(groups) + [g]
      ensures stdout.text == old(stdout.text) + GroupLine(name)
      ensures Valid()
    {
      g := new Group(|groups|);
      groups := groups + [g];
      stdout.Write(GroupLine(name));
    }
  }

  /* ---------------------------------------------------------------------- */
  /* Artifacts                                                              */
  /* ---------------------------------------------------------------------- */

  /** strings.TrimPrefix */
  function TrimPrefix(s: string, prefix: string): (r: string)
    ensures StartsWith(s, prefix) ==> s == prefix + r
    ensures !StartsWith(s, prefix) ==> r == s
  {
    if StartsWith(s, prefix) then s[|prefix|..] else s
  }

  /** The upload command for an artifact inside a container folder. */
  function UploadInFolderCommand(folder: string, name: string, path: string): string
  {
    "##vso[artifact.upload containerfolder=" + folder + ";artifactname=" + name + "]" + path
  }

  /** The upload command for an artifact at the root level. */
  function UploadCommand(name: string, path: string): string
  {
    "##vso[artifact.upload artifactname=" + name + "]" + path
  }

  /**
   * PublishArtifact: rejects an empty name, then an empty source; otherwise
   * drops one leading slash from the folder and writes exactly one upload
   * command, inside the folder when one is left.
   */
  method PublishArtifact(out: Stdout, folder: string, name: string, source: string)
    returns (err: Option<string>)
    modifies out
    ensures name == "" ==> err == Some("artifact name cannot be empty")
    ensures name != "" && source == "" ==> err == Some("artifact source cannot be empty")
    ensures err.Some? ==> out.text == old(out.text)
    ensures err.None? <==> name != "" && source != ""
    ensures err.None? ==>
              var f := TrimPrefix(folder, "/");
              out.text == old(out.text) + (if f != "" then UploadInFolderCommand(f, name, source)
                                          else UploadCommand(name, source))
  {
    if name == "" {
      return Some("artifact name cannot be empty");
    }
    if source == "" {
      return Some("artifact source cannot be empty");
    }
    var f := TrimPrefix(folder, "/");
    if f != "" {
      out.Write(UploadInFolderCommand(f, name, source));
    } else {
      out.Write(UploadCommand(name, source));
    }
    err := None;
  }

  /** Only one leading slash is dropped from the folder; the rest is kept as written. */
  lemma FolderLosesOneSlash(folder: string)
    ensures folder != [] && folder[0] == '/' ==> TrimPrefix(folder, "/") == folder[1..]
    ensures folder == [] || folder[0] != '/' ==> TrimPrefix(folder, "/") == folder
    ensures TrimPrefix("//a", "/") == "/a"
  {
    assert StartsWith("//a", "/");
  }

  /* ---------------------------------------------------------------------- */
  /* Progress                                                               */
  /* ---------------------------------------------------------------------- */

  /** The progress value SetProgress reports: the percentage clamped into [0, 100]. */
  function Clamped(progress: int): (r: nat)
    ensures r <= 100
    ensures 0 <= progress <= 100 ==> r == progress
    ensures progress < 0 ==> r == 0
    ensures progress > 100 ==> r == 100
  {
    if progress < 0 then 0 else if progress > 100 then 100 else progress
  }

  /** The set-progress command for a percentage. */
  function ProgressCommand(percent: nat): string
  {
    "##vso[task.setprogress value=" + NatToString(percent) + "]\n"
  }

  /** SetProgress with an integer percentage. */
  method SetProgress(out: Stdout, progress: int)
    modifies out
    ensures out.text == old(out.text) + ProgressCommand(Clamped(progress))
  {
    var progressPercent := progress;
    if progressPercent < 0 {
      progressPercent := 0;
    } else if progressPercent > 100 {
      progressPercent := 100;
    }
    out.Write(ProgressCommand(progressPercent));
  }

  /**
   * The value in a set-progress command reads back as the clamped
   * percentage, so a reader of the log always sees a value in [0, 100].
   */
  lemma ProgressReadsBack(progress: int)
    ensures var digits := NatToString(Clamped(progress));
            && ProgressCommand(Clamped(progress)) == "##vso[task.setprogress value=" + digits + "]\n"
            && ParseNat(digits) == Clamped(progress) <= 100
  {
    ParseNatToString(Clamped(progress));
  }
}
