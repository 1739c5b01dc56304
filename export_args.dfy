/**
 * Export arguments: what the caller may pass, the defaults, and the merge
 * that lets every supplied key override its default.
 */
module ExportArgs {
  import opened Wrappers

  /** One entry of the field catalog: (index, display label as `heading`, storage key). */
  datatype Field = Field(index: int, heading: string, key: string)

  /** The caller's argument array; `None` is a key the caller did not supply.
   *  `scope` is the `export` key ("all" or anything else). */
  datatype CallerArgs = CallerArgs(
    scope: Option<string>,
    filename: Option<string>,
    exportFields: Option<seq<Field>>,
    excludeFields: Option<seq<string>>)

  /** The merged arguments the export runs with. */
  datatype Args = Args(
    scope: string,
    filename: string,
    exportFields: seq<Field>,
    excludeFields: seq<string>)

  /** The `export` value that selects every user of the site. */
  const ExportAll: string := "all"

  const DefaultExclude: seq<string> := ["password", "confirm_password", "confirm_email"]

  /** The default download name; `today` is the date text of the export day. */
  function DefaultFilename(today: string): string {
    "wp-members-user-export-" + today + ".csv"
  }

  const NoArgs: CallerArgs := CallerArgs(None, None, None, None)

  function Defaults(catalog: seq<Field>, today: string): Args {
    Args(ExportAll, DefaultFilename(today), catalog, DefaultExclude)
  }

  /** Merge of a caller's array over the defaults: a supplied key wins. */
  function Merge(args: CallerArgs, defaults: Args): Args {
    Args(
      args.scope.GetOr(defaults.scope),
      args.filename.GetOr(defaults.filename),
      args.exportFields.GetOr(defaults.exportFields),
      args.excludeFields.GetOr(defaults.excludeFields))
  }

  /**
   * The arguments the export runs with: the argument filter `hook` is applied
   * once to the caller's array, and the result is merged over the defaults
   * built from the field catalog and the date text.
   */
  function Resolve(args: CallerArgs, hook: CallerArgs -> CallerArgs, catalog: seq<Field>, today: string): (r: Args)
    ensures hook(args).scope.None? ==> r.scope == ExportAll
    ensures hook(args).scope.Some? ==> r.scope == hook(args).scope.value
    ensures hook(args).filename.None? ==> r.filename == DefaultFilename(today)
    ensures hook(args).filename.Some? ==> r.filename == hook(args).filename.value
    ensures hook(args).exportFields.None? ==> r.exportFields == catalog
    ensures hook(args).exportFields.Some? ==> r.exportFields == hook(args).exportFields.value
    ensures hook(args).excludeFields.None? ==> r.excludeFields == DefaultExclude
    ensures hook(args).excludeFields.Some? ==> r.excludeFields == hook(args).excludeFields.value
  {
    Merge(hook(args), Defaults(catalog, today))
  }

  /** With no arguments and a pass-through filter, the export runs on the defaults. */
  lemma NoArgsMeansDefaults(catalog: seq<Field>, today: string)
    ensures Resolve(NoArgs, a => a, catalog, today) == Defaults(catalog, today)
    ensures Defaults(catalog, today).scope == "all"
    ensures Defaults(catalog, today).excludeFields == ["password", "confirm_password", "confirm_email"]
  {
  }

  /** Merging is idempotent: a fully resolved array merges to itself over any defaults. */
  lemma MergeResolved(a: Args, defaults: Args)
    ensures Merge(CallerArgs(Some(a.scope), Some(a.filename), Some(a.exportFields), Some(a.excludeFields)), defaults) == a
  {
  }
}
