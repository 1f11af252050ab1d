/**
  The worktree choice shared by `runPrompt` and the passthrough message handler:
  automatic worktree creation for threads without a mapping, its description,
  and the effective workspace path. The git work itself (worktreeManager.ts) is
  not part of this model: its outcome is a parameter.
 */
module Worktrees {
  import opened Wrappers
  import opened Types
  import opened DataStore
  import opened Strings

  /** A worktree `createWorktree` made; absent when creation threw. */
  datatype AutoWorktree = AutoWorktree(branchName: string, worktreePath: string)

  const DescriptionLimit: nat := 50

  /**
    The mapping description, `prompt.slice(0, 50)` plus "..." when
    `prompt.length > 50`. Both count UTF-16 code units: a prompt of at most 50
    units is kept whole; a longer one keeps its longest whole-character prefix
    of at most 50 units, which is 49 units only when the next character is a
    surrogate pair.
   */
  function Description(prompt: string): (d: string)
    ensures Utf16Length(prompt) <= DescriptionLimit ==> d == prompt
    ensures Utf16Length(prompt) > DescriptionLimit ==>
              && |d| >= 3 && d[|d| - 3..] == "..."
              && var kept := d[..|d| - 3];
                 && kept < prompt
                 && DescriptionLimit - 1 <= Utf16Length(kept) <= DescriptionLimit
                 && (Utf16Length(kept) < DescriptionLimit ==> Utf16Units(prompt[|kept|]) == 2)
    ensures Utf16Length(d) <= DescriptionLimit + 3
  {
    Utf16PrefixMeaning(prompt, DescriptionLimit);
    var kept := Utf16Prefix(prompt, DescriptionLimit);
    if Utf16Length(prompt) > DescriptionLimit then
      Utf16LengthAppend(kept, "...");
      assert kept != prompt;
      assert (kept + "...")[..|kept|] == kept;
      kept + "..."
    else prompt
  }

  /** On text without astral characters the rule is the character rule: the first 50 characters, then "...". */
  lemma DescriptionBmp(prompt: string)
    requires AllBmp(prompt)
    ensures Description(prompt)
         == if |prompt| <= DescriptionLimit then prompt else prompt[..DescriptionLimit] + "..."
  {
    Utf16LengthBmp(prompt);
    Utf16PrefixBmp(prompt, DescriptionLimit);
  }

  /** A prompt of astral characters only (emoji, say) keeps 25 characters, since each takes two code units. */
  lemma DescriptionAstral(prompt: string)
    requires AllAstral(prompt)
    ensures Description(prompt)
         == if |prompt| <= DescriptionLimit / 2 then prompt else prompt[..DescriptionLimit / 2] + "..."
  {
    Utf16LengthAstral(prompt);
    Utf16PrefixAstral(prompt, DescriptionLimit);
  }

  /** The workspace a prompt runs in: the mapped worktree, else the project. */
  function EffectivePath(mapping: Option<WorktreeMapping>, projectPath: string): (p: string)
    ensures mapping.Some? ==> p == mapping.value.worktreePath
    ensures mapping.None? ==> p == projectPath
  {
    match mapping
    case Some(m) => m.worktreePath
    case None => projectPath
  }

  /**
    The thread's mapping after the auto-worktree step: an existing mapping is
    kept; without one, a worktree is recorded only when the parent channel's
    project has auto-worktree on and creation succeeded. Only the mapping table
    can change.
   */
  function EnsureWorktree(s: Store, threadId: string, parentChannelId: string, projectPath: string,
                          prompt: string, created: Option<AutoWorktree>, now: int): (r: (Store, Option<WorktreeMapping>))
    ensures r.1 == GetWorktreeMapping(r.0, threadId)
    ensures GetWorktreeMapping(s, threadId).Some? ==> r == (s, GetWorktreeMapping(s, threadId))
    ensures r.0 == s.(worktreeMappings := r.0.worktreeMappings)
    ensures forall other :: other != threadId ==> GetWorktreeMapping(r.0, other) == GetWorktreeMapping(s, other)
    ensures r.1.Some? && GetWorktreeMapping(s, threadId).None? ==>
              && parentChannelId in s.autoWorktreeChannels && created.Some?
              && r.1.value == WorktreeMapping(threadId, created.value.branchName, created.value.worktreePath,
                                              projectPath, Description(prompt), now)
    ensures GetWorktreeMapping(s, threadId).None? && parentChannelId in s.autoWorktreeChannels && created.Some? ==>
              r.1.Some?
  {
    match GetWorktreeMapping(s, threadId)
    case Some(m) => (s, Some(m))
    case None =>
      if parentChannelId in s.autoWorktreeChannels && created.Some? then
        var m := WorktreeMapping(threadId, created.value.branchName, created.value.worktreePath,
                                 projectPath, Description(prompt), now);
        (SetWorktreeMapping(s, m), Some(m))
      else (s, None)
  }
}
