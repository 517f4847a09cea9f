/**
 * The git cheat-sheet: a constant catalogue of commands in five categories,
 * and the list the widget shows, either the selected category or, while a
 * search query is typed, every command of the catalogue that matches it.
 */
module GitHelper {
  import opened Seqs
  import opened Text

  datatype GitCommand = GitCommand(name: string, command: string, description: string)

  /** The keys of the catalogue, in declaration order. */
  datatype Category = Basics | Branches | Remote | History | Advanced

  /** The commands of one category, in declaration order. */
  function Commands(category: Category): seq<GitCommand> {
    match category
    case Basics => [
      GitCommand("Init Repository", "git init", "Initialize a new Git repository"),
      GitCommand("Clone Repository", "git clone <repository-url>", "Clone a repository into a new directory"),
      GitCommand("Add Files", "git add <file-name>", "Add file contents to the index"),
      GitCommand("Add All Files", "git add .", "Add all changes to the index"),
      GitCommand("Commit Changes", "git commit -m \"<message>\"", "Record changes to the repository"),
      GitCommand("Push Changes", "git push origin <branch-name>", "Update remote refs along with associated objects"),
      GitCommand("Pull Changes", "git pull", "Fetch from and integrate with another repository or branch"),
      GitCommand("Status", "git status", "Show the working tree status")
    ]
    case Branches => [
      GitCommand("List Branches", "git branch", "List, create, or delete branches"),
      GitCommand("Create Branch", "git branch <branch-name>", "Create a new branch"),
      GitCommand("Switch Branch", "git checkout <branch-name>", "Switch branches"),
      GitCommand("Create & Switch", "git checkout -b <branch-name>", "Create a new branch and switch to it"),
      GitCommand("Delete Branch", "git branch -d <branch-name>", "Delete a branch"),
      GitCommand("Merge Branch", "git merge <branch-name>", "Join two or more development histories together")
    ]
    case Remote => [
      GitCommand("Show Remotes", "git remote -v", "Show remote repositories"),
      GitCommand("Add Remote", "git remote add <name> <url>", "Add a remote named <name> for the repository at <url>"),
      GitCommand("Remove Remote", "git remote remove <name>", "Remove the remote named <name>"),
      GitCommand("Fetch Remote", "git fetch <remote-name>", "Download objects and refs from another repository")
    ]
    case History => [
      GitCommand("View Log", "git log", "Show commit logs"),
      GitCommand("View Log Graph", "git log --graph --oneline --decorate", "Show commit logs with a graph"),
      GitCommand("View Specific File History", "git log -- <file-path>", "Show commits that affected file"),
      GitCommand("Show Changes", "git show <commit-hash>", "Show various types of objects")
    ]
    case Advanced => [
      GitCommand("Stash Changes", "git stash", "Stash the changes in a dirty working directory"),
      GitCommand("Apply Stash", "git stash apply", "Apply stashed changes"),
      GitCommand("Create Tag", "git tag <tag-name>", "Create a tag"),
      GitCommand("Rebase Branch", "git rebase <branch-name>", "Reapply commits on top of another base"),
      GitCommand("Reset to Commit", "git reset --hard <commit-hash>", "Reset current HEAD to the specified state"),
      GitCommand("Clean Untracked Files", "git clean -fd", "Remove untracked files from the working tree")
    ]
  }

  /**
   * Object.values(...).flat() over a catalogue given by category: every
   * category's commands, categories in declaration order.
   */
  function Flatten(byCategory: Category -> seq<GitCommand>): seq<GitCommand> {
    byCategory(Basics) + byCategory(Branches) + byCategory(Remote) + byCategory(History) + byCategory(Advanced)
  }

  /** The name, the command or the description contains the query, ignoring letter case. */
  predicate Matches(cmd: GitCommand, query: string) {
    var q := Lower(query);
    Contains(Lower(cmd.name), q) || Contains(Lower(cmd.command), q) || Contains(Lower(cmd.description), q)
  }

  /** The callback of the search filter. */
  function MatchesQuery(query: string): GitCommand -> bool {
    cmd => Matches(cmd, query)
  }

  /**
   * The search: exactly the commands of `catalogue` that match the query,
   * each as often as in the catalogue, in catalogue order.
   */
  function Search(catalogue: seq<GitCommand>, query: string): (r: seq<GitCommand>)
    ensures forall cmd :: cmd in r ==> cmd in catalogue && Matches(cmd, query)
    ensures forall cmd :: cmd in catalogue && Matches(cmd, query) ==> cmd in r
    ensures forall cmd | cmd in catalogue :: multiset(r)[cmd] == if Matches(cmd, query) then multiset(catalogue)[cmd] else 0
    ensures IsSubseq(r, catalogue)
  {
    FilterIsSubseq(catalogue, MatchesQuery(query));
    Filter(catalogue, MatchesQuery(query))
  }

  /**
   * The widget's list for a catalogue: with an empty query the selected
   * category, otherwise the search over the whole flattened catalogue.
   */
  function Filtered(byCategory: Category -> seq<GitCommand>, category: Category, query: string): seq<GitCommand> {
    if query == "" then byCategory(category) else Search(Flatten(byCategory), query)
  }

  /** filteredCommands: the widget's list for the cheat-sheet's own catalogue. */
  function FilteredCommands(category: Category, query: string): seq<GitCommand> {
    Filtered(Commands, category, query)
  }

  // The properties below hold for every catalogue, the cheat-sheet's among them.

  /** With an empty query the result is the selected category, a stretch of the catalogue. */
  lemma {:induction false} EmptyQueryShowsCategory(byCategory: Category -> seq<GitCommand>, category: Category)
    ensures Filtered(byCategory, category, "") == byCategory(category)
    ensures IsSubseq(Filtered(byCategory, category, ""), Flatten(byCategory))
  {
    CategoryInCatalogue(byCategory, category);
  }

  /** Soundness: with a query, every result is a catalogue command that matches it. */
  lemma {:induction false} SearchSound(byCategory: Category -> seq<GitCommand>, category: Category, query: string)
    requires query != ""
    ensures forall cmd :: cmd in Filtered(byCategory, category, query) ==> cmd in Flatten(byCategory) && Matches(cmd, query)
  {
  }

  /** Completeness: with a query, every catalogue command that matches it is in the result. */
  lemma {:induction false} SearchComplete(byCategory: Category -> seq<GitCommand>, category: Category, query: string)
    requires query != ""
    ensures forall cmd :: cmd in Flatten(byCategory) && Matches(cmd, query) ==> cmd in Filtered(byCategory, category, query)
  {
  }

  /** Order: the result, with or without a query, is a subsequence of the flattened catalogue. */
  lemma {:induction false} ResultInCatalogueOrder(byCategory: Category -> seq<GitCommand>, category: Category, query: string)
    ensures IsSubseq(Filtered(byCategory, category, query), Flatten(byCategory))
  {
    if query == "" {
      CategoryInCatalogue(byCategory, category);
    }
  }

  /** Each category is a stretch of the flattened catalogue. */
  lemma {:induction false} CategoryInCatalogue(byCategory: Category -> seq<GitCommand>, category: Category)
    ensures IsSubseq(byCategory(category), Flatten(byCategory))
  {
    var b, br, re, hi, ad := byCategory(Basics), byCategory(Branches), byCategory(Remote), byCategory(History), byCategory(Advanced);
    IsSubseqRefl(byCategory(category));
    match category
    case Basics =>
      IsSubseqAppend(b, b, br + re + hi + ad);
      assert b + (br + re + hi + ad) == Flatten(byCategory);
    case Branches =>
      IsSubseqPrepend(br, br, b);
      IsSubseqAppend(br, b + br, re + hi + ad);
      assert (b + br) + (re + hi + ad) == Flatten(byCategory);
    case Remote =>
      IsSubseqPrepend(re, re, b + br);
      IsSubseqAppend(re, b + br + re, hi + ad);
      assert (b + br + re) + (hi + ad) == Flatten(byCategory);
    case History =>
      IsSubseqPrepend(hi, hi, b + br + re);
      IsSubseqAppend(hi, b + br + re + hi, ad);
    case Advanced =>
      IsSubseqPrepend(ad, ad, b + br + re + hi);
  }

  /** While a query is typed, the selected category does not matter. */
  lemma {:induction false} SearchIgnoresCategory(byCategory: Category -> seq<GitCommand>, c1: Category, c2: Category, query: string)
    requires query != ""
    ensures Filtered(byCategory, c1, query) == Filtered(byCategory, c2, query)
  {
  }

  /** Queries that differ only in letter case give the same result. */
  lemma {:induction false} SearchIgnoresCase(byCategory: Category -> seq<GitCommand>, category: Category, q1: string, q2: string)
    requires q1 != "" && q2 != "" && Lower(q1) == Lower(q2)
    ensures Filtered(byCategory, category, q1) == Filtered(byCategory, category, q2)
  {
    FilterCongruent(Flatten(byCategory), MatchesQuery(q1), MatchesQuery(q2));
  }
}
