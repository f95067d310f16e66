/** The prompt and version endpoints (backend/routers/prompts.py):
    creating a prompt with its first version, numbering new versions,
    activating a version and listing a prompt's versions. */
module Prompts {
  import opened Wrappers
  import opened Json
  import opened Tables

  /** The version `create_prompt` writes for a new prompt: number 1, no
      content, inactive. */
  function InitialVersion(pid: nat): VersionRow {
    VersionRow(pid, 1, "", None, None, None, false)
  }

  /** `create_prompt`: the prompt row, then its initial version. */
  method CreatePrompt(db: Database, name: string, taskType: string, outputSchema: Option<Json>)
    returns (id: nat)
    requires db.Valid()
    modifies db`prompts, db`versions
    ensures db.Valid()
    ensures id == |old(db.prompts)|
    ensures db.prompts == old(db.prompts) + [PromptRow(name, taskType, outputSchema)]
    ensures db.versions == old(db.versions) + [InitialVersion(id)]
  {
    id := |db.prompts|;
    db.prompts := db.prompts + [PromptRow(name, taskType, outputSchema)];
    db.versions := db.versions + [InitialVersion(id)];
  }

  /** A new prompt owns exactly its initial version, has no active version
      (so the improvement loop refuses it until a version is activated),
      and its next version is number 2. */
  lemma NewPromptStartsInactive(vs: seq<VersionRow>, pid: nat)
    requires forall i :: 0 <= i < |vs| ==> vs[i].promptId != pid
    ensures var after := vs + [InitialVersion(pid)];
            && ActiveVersion(after, pid).None?
            && VersionsOf(after, pid) == [(|vs|, InitialVersion(pid))]
            && NextVersionNumber(after, pid) == 2
  {
    var after := vs + [InitialVersion(pid)];
    assert after[..|after| - 1] == vs;
    NoVersionsOfUnusedPrompt(vs, pid);
    var n := NextVersionNumber(after, pid);
    assert after[|vs|].version < n;
  }

  lemma {:induction false} NoVersionsOfUnusedPrompt(vs: seq<VersionRow>, pid: nat)
    requires forall i :: 0 <= i < |vs| ==> vs[i].promptId != pid
    ensures VersionsOf(vs, pid) == []
    decreases |vs|
  {
    if vs != [] {
      NoVersionsOfUnusedPrompt(vs[..|vs| - 1], pid);
    }
  }

  /** The row `create_version` writes: the next number, always inactive. */
  function NewVersion(vs: seq<VersionRow>, pid: nat, content: string, parent: Option<nat>,
                      generationMethod: Option<string>, rationale: Option<string>): (row: VersionRow)
    ensures row.promptId == pid && !row.isActive && row.parentVersionId == parent
    ensures forall i :: 0 <= i < |vs| && vs[i].promptId == pid ==> vs[i].version < row.version
    ensures (forall i :: 0 <= i < |vs| ==> vs[i].promptId != pid) ==> row.version == 1
  {
    VersionRow(pid, NextVersionNumber(vs, pid), content, parent, generationMethod, rationale, false)
  }

  /** `create_version`. The database rejects the insert when the prompt or
      the parent does not exist (the table's foreign keys). */
  method CreateVersion(db: Database, pid: nat, content: string, parent: Option<nat>,
                       generationMethod: Option<string>, rationale: Option<string>)
    returns (r: Result<nat, ApiError>)
    requires db.Valid()
    modifies db`versions
    ensures db.Valid()
    ensures r.Err? <==> pid >= |db.prompts| || (parent.Some? && parent.value >= |old(db.versions)|)
    ensures r.Err? ==> db.versions == old(db.versions)
    ensures r.Ok? ==> r.value == |old(db.versions)|
    ensures r.Ok? ==>
              db.versions == old(db.versions) + [NewVersion(old(db.versions), pid, content, parent, generationMethod, rationale)]
  {
    var row := NewVersion(db.versions, pid, content, parent, generationMethod, rationale);
    if pid >= |db.prompts| || (parent.Some? && parent.value >= |db.versions|) {
      return Err(InsertFailed("prompt_versions"));
    }
    r := Ok(|db.versions|);
    db.versions := db.versions + [row];
  }

  /** Creating a version keeps the numbers of a prompt unique and keeps at
      most one version of each prompt active. */
  lemma CreateVersionKeepsInvariants(vs: seq<VersionRow>, pid: nat, content: string, parent: Option<nat>,
                                     generationMethod: Option<string>, rationale: Option<string>)
    requires UniqueNumbers(vs) && AtMostOneActive(vs)
    ensures var after := vs + [NewVersion(vs, pid, content, parent, generationMethod, rationale)];
            UniqueNumbers(after) && AtMostOneActive(after)
  {
    var row := NewVersion(vs, pid, content, parent, generationMethod, rationale);
    AppendFreshNumberKeepsUnique(vs, row);
    AppendInactiveKeepsAtMostOne(vs, row);
  }

  // ---------------------------------------------------------------------
  // activate_version
  // ---------------------------------------------------------------------

  /** The two updates of `activate_version`: every version of the prompt
      is deactivated, then the row with the given id, whichever prompt it
      belongs to, is activated. */
  function Activated(vs: seq<VersionRow>, pid: nat, vid: nat): seq<VersionRow> {
    WithFlag(Deactivated(vs, pid), vid, true)
  }

  method ActivateVersion(db: Database, pid: nat, vid: nat) returns (r: Result<nat, ApiError>)
    requires db.Valid()
    modifies db`versions
    ensures db.Valid()
    ensures db.versions == Activated(old(db.versions), pid, vid)
    ensures r == if vid < |db.versions| then Ok(vid) else Err(NotFound("Version not found"))
  {
    db.versions := Activated(db.versions, pid, vid);
    if vid < |db.versions| {
      r := Ok(vid);
    } else {
      r := Err(NotFound("Version not found"));
    }
  }

  /** Activating a version of the prompt leaves it the prompt's only
      active version. */
  lemma ActivateMakesTargetSoleActive(vs: seq<VersionRow>, pid: nat, vid: nat)
    requires vid < |vs| && vs[vid].promptId == pid
    ensures var after := Activated(vs, pid, vid);
            && ActiveVersion(after, pid) == Some(vid)
            && forall i :: 0 <= i < |after| && i != vid && after[i].promptId == pid ==> !after[i].isActive
  {
    var after := Activated(vs, pid, vid);
    var a := ActiveVersion(after, pid);
    assert after[vid].isActive && after[vid].promptId == pid;
    assert a.Some?;
  }

  /** With an unknown id the prompt is left without an active version. */
  lemma ActivateUnknownLeavesNoneActive(vs: seq<VersionRow>, pid: nat, vid: nat)
    requires vid >= |vs|
    ensures NoneActive(Activated(vs, pid, vid), pid)
    ensures ActiveVersion(Activated(vs, pid, vid), pid).None?
  {
  }

  /** Activation flips only `is_active`: contents, numbers and parents
      stay, and rows of other prompts change only at the target id. */
  lemma ActivateChangesOnlyFlags(vs: seq<VersionRow>, pid: nat, vid: nat)
    ensures OnlyFlagsChanged(vs, Activated(vs, pid, vid))
    ensures forall i :: 0 <= i < |vs| && vs[i].promptId != pid && i != vid ==> Activated(vs, pid, vid)[i] == vs[i]
  {
  }

  /** Within one prompt, activation keeps at most one active version per prompt. */
  lemma ActivateWithinPromptKeepsAtMostOne(vs: seq<VersionRow>, pid: nat, vid: nat)
    requires AtMostOneActive(vs)
    requires vid >= |vs| || vs[vid].promptId == pid
    ensures AtMostOneActive(Activated(vs, pid, vid))
  {
    var after := Activated(vs, pid, vid);
    forall i, j | 0 <= i < j < |after| && after[i].promptId == after[j].promptId
      ensures !(after[i].isActive && after[j].isActive)
    {
      if after[i].promptId != pid && i != vid && j != vid {
        assert after[i] == vs[i] && after[j] == vs[j];
      }
    }
  }

  /** As written, the second update is not restricted to the prompt: the
      id of another prompt's version activates it beside that prompt's
      active version. */
  lemma ActivateAcrossPromptsBreaksAtMostOne()
    ensures var vs := [VersionRow(0, 1, "a", None, None, None, true),
                       VersionRow(0, 2, "b", None, None, None, false),
                       VersionRow(1, 1, "c", None, None, None, false)];
            AtMostOneActive(vs) && !AtMostOneActive(Activated(vs, 1, 1))
  {
    var vs := [VersionRow(0, 1, "a", None, None, None, true),
               VersionRow(0, 2, "b", None, None, None, false),
               VersionRow(1, 1, "c", None, None, None, false)];
    var after := Activated(vs, 1, 1);
    assert after[0].isActive && after[1].isActive && after[0].promptId == after[1].promptId;
  }

  /** The evidently intended activation: the second update also filters
      on the prompt, so an id of another prompt's version activates
      nothing. */
  function ActivatedInPrompt(vs: seq<VersionRow>, pid: nat, vid: nat): seq<VersionRow> {
    if vid < |vs| && vs[vid].promptId == pid then WithFlag(Deactivated(vs, pid), vid, true)
    else Deactivated(vs, pid)
  }

  /** Restricted to the prompt, activation keeps at most one active
      version per prompt for every pair of ids. */
  lemma ActivateInPromptKeepsAtMostOne(vs: seq<VersionRow>, pid: nat, vid: nat)
    requires AtMostOneActive(vs)
    ensures AtMostOneActive(ActivatedInPrompt(vs, pid, vid))
    ensures vid < |vs| && vs[vid].promptId == pid ==> ActivatedInPrompt(vs, pid, vid) == Activated(vs, pid, vid)
    ensures !(vid < |vs| && vs[vid].promptId == pid) ==> NoneActive(ActivatedInPrompt(vs, pid, vid), pid)
  {
    if vid < |vs| && vs[vid].promptId == pid {
      ActivateWithinPromptKeepsAtMostOne(vs, pid, vid);
    }
  }

  // ---------------------------------------------------------------------
  // list_versions
  // ---------------------------------------------------------------------

  /** `list_versions`: the prompt's versions with their ids, greatest
      number first. */
  function ListVersions(vs: seq<VersionRow>, pid: nat): (r: seq<(nat, VersionRow)>)
    ensures SortedByVersionDesc(r)
    ensures multiset(r) == multiset(VersionsOf(vs, pid))
    ensures forall k :: 0 <= k < |r| ==> r[k].0 < |vs| && vs[r[k].0] == r[k].1 && r[k].1.promptId == pid
    ensures forall i :: 0 <= i < |vs| && vs[i].promptId == pid ==> (i, vs[i]) in r
  {
    var mine := VersionsOf(vs, pid);
    var r := SortByVersionDesc(mine);
    assert forall k :: 0 <= k < |r| ==> r[k] in multiset(mine);
    assert forall row :: row in mine ==> row in multiset(r);
    r
  }

  /** The listing repeats no version: its ids are distinct. */
  lemma ListedIdsAreDistinct(vs: seq<VersionRow>, pid: nat)
    ensures var r := ListVersions(vs, pid);
            forall j, k :: 0 <= j < k < |r| ==> r[j].0 != r[k].0
  {
    var r := ListVersions(vs, pid);
    var mine := VersionsOf(vs, pid);
    forall j, k | 0 <= j < k < |r|
      ensures r[j].0 != r[k].0
    {
      if r[j].0 == r[k].0 {
        assert r[j] == r[k];
        CountedTwice(r, j, k);
        DistinctEntriesOnce(mine, r[j]);
      }
    }
  }

  lemma CountedTwice(r: seq<(nat, VersionRow)>, j: nat, k: nat)
    requires j < k < |r| && r[j] == r[k]
    ensures multiset(r)[r[j]] >= 2
  {
    assert r == r[..k] + r[k..];
    assert r[..k][j] == r[j];
    assert r[k..][0] == r[j];
  }

  /** Entries with distinct ids occur at most once. */
  lemma DistinctEntriesOnce(mine: seq<(nat, VersionRow)>, entry: (nat, VersionRow))
    requires forall j, k :: 0 <= j < k < |mine| ==> mine[j].0 < mine[k].0
    ensures multiset(mine)[entry] <= 1
  {
    if mine != [] {
      var n := |mine| - 1;
      assert mine == mine[..n] + [mine[n]];
      DistinctEntriesOnce(mine[..n], entry);
      if mine[n] == entry {
        assert entry !in mine[..n] by {
          forall k | 0 <= k < n
            ensures mine[..n][k] != entry
          {
            assert mine[k].0 < mine[n].0;
          }
        }
      }
    }
  }
}
