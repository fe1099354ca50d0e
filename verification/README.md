# hasura-fzf command builder — a Dafny model

hasura-fzf wraps the `hasura` CLI for three operations: `seed apply`,
`migrate apply` and `migrate delete`. The `HasuraCmd` object runs a small
pipeline. First it lists the seeds or migrations directory of the chosen
database and keeps the eligible entries: non-directory entries for seeds,
directories for migrations. Then the operator picks one entry in a fuzzy
finder. The picked name is turned into a target: the leading version digits
for migrations, the name itself for seeds. Finally the object builds the
argument vector `seed apply --file <target>` or
`migrate apply|delete --version <target>`, followed by one `--key [value]`
group per option.

`hasura.dfy` holds one module, `Hasura`, with these parts:

- the class `HasuraCmd`. Its fields `command`, `fileNames` and `target`
  are updated by methods with loops. `called` and `options` are never
  changed after construction, so they are `const`.
- the pure specification functions these methods are proved against:
  `TrimVersion`, `ResolveTarget`, `Candidates`, `Prefix` and `Flags`.
- lemmas about those functions.

Three things are inputs of the model:

- the directory listing: a `DirListing`, either a sequence of
  `(name, isDir)` entries or an error message;
- the finder: a function from the candidate list to a `Selection`, either
  an index into that list or an error;
- the iteration order of the options map: a sequence `order` that lists
  every key exactly once. Go randomizes this order for each `range` loop,
  so `SetCommand` takes it as a parameter. Every lemma about options holds
  for any such order.

Option values are `Str(s)`, `Bool(b)` or `Other`. The last stands for any
other dynamic type, which produces a flag with no value token.

Behaviour of the code worth knowing:

- The code fails with "no file" only when the raw listing is empty. A
  listing with entries but no eligible ones succeeds with no candidates.
- A value that is neither a string nor a bool is not an error. It emits
  only its `--key` token.
- With an empty target, `setCommand` leaves `command` as it was, but `Run`
  still hands that unchanged command to `exec`. On a fresh object that
  means `hasura` with no arguments. `Run` therefore returns
  `Executed(command)` in that case too.

## Model

| member | source | states |
|---|---|---|
| `Hasura.TrimVersion` | cmd/hasura/hasura.go:142-148 | the result is a prefix of the name, made only of ASCII digits, and the next character of the name (if any) is not a digit: the match of `^[0-9]+`, or "" |
| `Hasura.TrimVersionUnique` | cmd/hasura/hasura.go:142-148 | any all-digit prefix not followed by a digit equals `TrimVersion`, so the function is exactly the longest leading digit run |
| `Hasura.TrimVersionEmpty` | cmd/hasura/hasura.go:142-148 | the version is "" exactly when the name is empty or does not start with a digit |
| `Hasura.TrimVersionIdempotent` | cmd/hasura/hasura.go:142-148 | extracting the version of a version gives it back unchanged |
| `Hasura.TrimVersionExample` | cmd/hasura/hasura.go:142-148 | "0003_create_users" gives "0003"; "create_users" gives "" |
| `Hasura.ResolveTarget` | cmd/hasura/hasura.go:89-93 | the target is always a prefix of the selected name: the name itself for seeds, its maximal leading digit run for migrate apply/delete |
| `Hasura.CandidatesAppend` | cmd/hasura/hasura.go:114-123 | filtering keeps listing order: filtering a concatenated listing gives the concatenation of the filtered parts |
| `Hasura.CandidatesMembers` | cmd/hasura/hasura.go:114-123 | a name is a candidate iff some entry carries it and is a directory for a migrate kind or a non-directory entry for seed apply |
| `Hasura.CandidatesUnknown` | cmd/hasura/hasura.go:114-123 | an unknown kind keeps no entries |
| `Hasura.Prefix` | cmd/hasura/hasura.go:61-67 | the fixed leading part of a command has four tokens and ends with the target |
| `Hasura.FlagsLength` | cmd/hasura/hasura.go:72-80 | the flags have one token per option plus one per string or bool option |
| `Hasura.CountValuedCard` | cmd/hasura/hasura.go:72-80 | over distinct keys, the count of valued options is the number of keys whose value is a string or a bool |
| `Hasura.CommandLength` | cmd/hasura/hasura.go:61-80 | a built command has length 4 + number of options + number of string-or-bool options, whatever the iteration order |
| `Hasura.FlagsHasOption` | cmd/hasura/hasura.go:72-80 | every option's `--key` token appears, directly followed by its string verbatim or its bool as "true"/"false" (no value token for other types) |
| `Hasura.MigrateApplyExample` | cmd/hasura/hasura.go:61-80 | migrate apply, target "0007", database-name "app" gives `migrate apply --version 0007 --database-name app` |
| `Hasura.CommandHasOption` | cmd/hasura/hasura.go:61-80 | in a built command, for any iteration order, every option's `--key` is directly followed by its value token |
| `Hasura.SeedApplyExample` | cmd/hasura/hasura.go:61-80 | seed apply of "001_users.sql" with database-name "app" and dry-run true gives, for either iteration order, eight tokens starting `seed apply --file 001_users.sql` and containing the pairs `--database-name app` and `--dry-run true` |
| `Hasura.HasuraCmd.constructor` | cmd/hasura/hasura.go:31-36 | a new command keeps `called` and `options` and has no candidates, no target and an empty command |
| `Hasura.HasuraCmd.Run` | cmd/hasura/hasura.go:38-46 | stops at the first failure: a listing error or "no file" leaves every field untouched; a finder error leaves `target` and `command` untouched; otherwise the resolved target is set and the built (or unchanged) command is what gets executed |
| `Hasura.HasuraCmd.SetCommand` | cmd/hasura/hasura.go:56-82 | with an empty target or an unknown kind, `command` is unchanged; otherwise the old contents are discarded and `command` is the kind's four-token prefix followed by the flags in iteration order |
| `Hasura.HasuraCmd.AppendFlags` | cmd/hasura/hasura.go:71-80 | the loop appends exactly the flags of the visited options, in visiting order |
| `Hasura.HasuraCmd.SetTarget` | cmd/hasura/hasura.go:84-95 | fails iff the finder fails, passing its error on and leaving `target` unchanged; on success the selected name is an element of `fileNames` and `target` is its version (migrate kinds) or the name itself (seed apply) |
| `Hasura.HasuraCmd.SetFileNames` | cmd/hasura/hasura.go:97-125 | a listing error is passed on and an empty listing fails with "no file", both leaving `fileNames` unchanged; otherwise it succeeds and appends exactly the eligible names, in listing order, after the old contents |
| `Hasura.HasuraCmd.FindOne` | cmd/hasura/hasura.go:127-140 | the finder's error is passed on with an empty name; otherwise the name is the element of `fileNames` at the finder's index |

## Left out

- `exec` (cmd/hasura/hasura.go:48-54) starts the `hasura` subprocess and prints the command line. Process execution and output are I/O. `Run` returns the argument vector it would execute instead of the combined output.
- Reading the directory and building its path (`./seeds/<database-name>` or `./migrations/<database-name>`) is filesystem access. The listing is an input. For an unknown kind the source reads the path "", which in practice gives a listing error.
- The fuzzy finder UI is an external library. It is modelled by its contract only: it returns an index into the list it was shown, or an error.
- The package-level compiled regular expression and `setRegex` (cmd/hasura/hasura.go:21, 32-34, 146-148) are replaced by the pure function `TrimVersion`. So `NewHasuraCmd` has no side effect in the model.
- Go error values are modelled as their message strings.
- The random iteration order of Go maps is not modelled as randomness. Each `SetCommand` call takes the order as an input, and every property about options holds for any order.
- `ioutil.ReadDir` returns its entries sorted by name. The model accepts a listing in any order, so "in listing order" means name order in the program.
- Go strings are byte strings, while the model's strings are sequences of characters. This does not affect `TrimVersion`, because ASCII digits never occur inside a multi-byte UTF-8 sequence.
