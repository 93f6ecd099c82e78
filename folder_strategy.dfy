/**
 * Turning the three mutually exclusive folder-selection flags of
 * `account sync` (`--include-folder`, `--exclude-folder`, `--all-folders`)
 * into the optional folder strategy handed to the sync builder.
 */
module FolderStrategy {
  import opened Wrappers

  type FolderName = string

  /** The strategy the external sync engine understands. */
  datatype FolderSyncStrategy =
    | All
    | Include(folders: set<FolderName>)
    | Exclude(folders: set<FolderName>)

  /** `HashSet::from_iter` over a list of folder names. */
  function Collect(names: seq<FolderName>): (r: set<FolderName>)
    ensures forall x :: x in r <==> x in names
  {
    if names == [] then {} else Collect(names[..|names| - 1]) + {names[|names| - 1]}
  }

  /** Collecting never yields more folders than names were given. */
  lemma {:induction false} CollectSize(names: seq<FolderName>)
    ensures |Collect(names)| <= |names|
  {
    if names != [] {
      CollectSize(names[..|names| - 1]);
    }
  }

  /** Only the distinct names matter: order and repetitions are forgotten. */
  lemma CollectForgetsOrderAndDuplicates(a: seq<FolderName>, b: seq<FolderName>)
    requires forall x :: x in a <==> x in b
    ensures Collect(a) == Collect(b)
  {
  }

  /** A repeated name collapses into the one already collected. */
  lemma CollectDuplicate(names: seq<FolderName>, x: FolderName)
    requires x in names
    ensures Collect(names + [x]) == Collect(names)
    ensures |Collect(names + [x])| <= |names|
  {
    assert forall y :: y in names + [x] <==> y in names;
    CollectSize(names);
  }

  /**
   * The strategy chosen from the command-line inputs: an include list wins
   * over an exclude list, which wins over the all-folders flag; with none of
   * them the account's default strategy is kept (`None`).
   */
  function ResolveStrategy(includeFolder: seq<FolderName>, excludeFolder: seq<FolderName>, allFolders: bool)
    : (r: Option<FolderSyncStrategy>)
    ensures includeFolder != [] ==> r == Some(Include(Collect(includeFolder)))
    ensures includeFolder == [] && excludeFolder != [] ==> r == Some(Exclude(Collect(excludeFolder)))
    ensures includeFolder == [] && excludeFolder == [] && allFolders ==> r == Some(All)
    ensures includeFolder == [] && excludeFolder == [] && !allFolders ==> r == None
  {
    var included := Collect(includeFolder);
    var excluded := Collect(excludeFolder);
    if included != {} then
      Some(Include(included))
    else if excluded != {} then
      Some(Exclude(excluded))
    else if allFolders then
      Some(All)
    else
      None
  }

  /**
   * The chosen strategy never carries an empty folder set, and it names
   * exactly the folders that were listed for it.
   */
  lemma ResolvedSetsAreExact(includeFolder: seq<FolderName>, excludeFolder: seq<FolderName>, allFolders: bool)
    ensures match ResolveStrategy(includeFolder, excludeFolder, allFolders)
      case Some(Include(s)) => s != {} && forall x :: x in s <==> x in includeFolder
      case Some(Exclude(s)) => s != {} && includeFolder == [] && forall x :: x in s <==> x in excludeFolder
      case Some(All) => includeFolder == [] && excludeFolder == [] && allFolders
      case None => includeFolder == [] && excludeFolder == [] && !allFolders
  {
  }

  /** The default strategy is kept exactly when no selection flag was given. */
  lemma DefaultStrategyIffNoFlag(includeFolder: seq<FolderName>, excludeFolder: seq<FolderName>, allFolders: bool)
    ensures ResolveStrategy(includeFolder, excludeFolder, allFolders).None?
        <==> includeFolder == [] && excludeFolder == [] && !allFolders
  {
  }
}
