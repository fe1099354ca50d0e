/**
 * A model of the `hasura` package of hasura-fzf: the `HasuraCmd` type that
 * lists the candidate seeds or migrations, lets the operator pick one,
 * resolves the target and builds the argument vector for the `hasura` CLI.
 *
 * The filesystem listing, the interactive fuzzy finder and the iteration
 * order of the options map are inputs of the model; running the built
 * command is not modelled (the model returns the argument vector that would
 * be executed).
 */
module Hasura {

  // ---------------------------------------------------------------------
  // Operation kinds (the `called` string)
  // ---------------------------------------------------------------------

  const SeedApply: string := "seed apply"
  const MigrateApply: string := "migrate apply"
  const MigrateDelete: string := "migrate delete"

  /** The error message returned for an empty directory. */
  const NoFile: string := "no file"

  predicate IsMigrate(called: string) {
    called == MigrateApply || called == MigrateDelete
  }

  predicate IsKnown(called: string) {
    called == SeedApply || IsMigrate(called)
  }

  // ---------------------------------------------------------------------
  // Inputs and outcomes
  // ---------------------------------------------------------------------

  /** A dynamically typed option value: a string, a bool, or anything else. */
  datatype Value = Str(s: string) | Bool(b: bool) | Other

  /** One entry of a directory listing. */
  datatype DirEntry = DirEntry(name: string, isDir: bool)

  /** What reading the seeds or migrations directory gives. */
  datatype DirListing = Listed(entries: seq<DirEntry>) | Unreadable(err: string)

  /** What the interactive finder gives: an index into the candidates, or an error. */
  datatype Selection = Chosen(index: nat) | Aborted(err: string)

  /** A Go `error` result: nil or an error message. */
  datatype Status = Success | Failure(err: string)

  /** The outcome of `Run`: an error, or the argument vector handed to `hasura`. */
  datatype RunResult = Failed(err: string) | Executed(argv: seq<string>)

  // ---------------------------------------------------------------------
  // Version extraction: the regular expression ^[0-9]+
  // ---------------------------------------------------------------------

  predicate IsDigit(c: char) {
    '0' <= c <= '9'
  }

  predicate AllDigits(s: string) {
    forall i :: 0 <= i < |s| ==> IsDigit(s[i])
  }

  /** The longest leading run of ASCII digits of `s` ("" when there is none). */
  function TrimVersion(s: string): (r: string)
    ensures r <= s
    ensures AllDigits(r)
    ensures |r| < |s| ==> !IsDigit(s[|r|])
  {
    if |s| > 0 && IsDigit(s[0]) then [s[0]] + TrimVersion(s[1..]) else ""
  }

  /**
   * Any all-digit prefix that is not followed by a digit is the version; it
   * follows from the contract of `TrimVersion` alone.
   */
  lemma TrimVersionUnique(s: string, p: string)
    requires p <= s && AllDigits(p)
    requires |p| < |s| ==> !IsDigit(s[|p|])
    ensures TrimVersion(s) == p
  {
  }

  /** The version is empty exactly when `s` does not start with a digit. */
  lemma TrimVersionEmpty(s: string)
    ensures TrimVersion(s) == "" <==> (s == "" || !IsDigit(s[0]))
  {
  }

  /** Extracting the version of a version changes nothing. */
  lemma TrimVersionIdempotent(s: string)
    ensures TrimVersion(TrimVersion(s)) == TrimVersion(s)
  {
  }

  lemma TrimVersionExample()
    ensures TrimVersion("0003_create_users") == "0003"
    ensures TrimVersion("create_users") == ""
  {
  }

  // ---------------------------------------------------------------------
  // Target resolution
  // ---------------------------------------------------------------------

  /**
   * The target for a selected name: its version for the migrate kinds, the
   * name itself otherwise.
   */
  function ResolveTarget(called: string, selected: string): (r: string)
    ensures r <= selected
    ensures !IsMigrate(called) ==> r == selected
    ensures IsMigrate(called) ==> AllDigits(r) && (|r| < |selected| ==> !IsDigit(selected[|r|]))
  {
    if IsMigrate(called) then TrimVersion(selected) else selected
  }

  // ---------------------------------------------------------------------
  // Candidate filtering
  // ---------------------------------------------------------------------

  /** Non-directory entries are candidates for seeds, directories for migrations. */
  predicate Eligible(called: string, e: DirEntry) {
    (e.isDir && IsMigrate(called)) || (!e.isDir && called == SeedApply)
  }

  /** The names of the eligible entries, in listing order. */
  function Candidates(called: string, entries: seq<DirEntry>): (r: seq<string>)
    ensures |r| <= |entries|
  {
    if entries == [] then []
    else
      var last := entries[|entries| - 1];
      Candidates(called, entries[..|entries| - 1]) + (if Eligible(called, last) then [last.name] else [])
  }

  /** Filtering a concatenated listing concatenates the filtered parts. */
  lemma {:induction false} CandidatesAppend(called: string, a: seq<DirEntry>, b: seq<DirEntry>)
    ensures Candidates(called, a + b) == Candidates(called, a) + Candidates(called, b)
  {
    if b == [] {
      assert a + b == a;
    } else {
      var last := b[|b| - 1];
      assert (a + b)[..|a + b| - 1] == a + b[..|b| - 1];
      CandidatesAppend(called, a, b[..|b| - 1]);
    }
  }

  /** A name is a candidate iff some eligible entry carries it. */
  lemma {:induction false} CandidatesMembers(called: string, entries: seq<DirEntry>, x: string)
    ensures x in Candidates(called, entries) <==> exists e :: e in entries && Eligible(called, e) && e.name == x
  {
    if entries != [] {
      var init := entries[..|entries| - 1];
      var last := entries[|entries| - 1];
      CandidatesMembers(called, init, x);
      assert entries == init + [last];
      if exists e :: e in entries && Eligible(called, e) && e.name == x {
        var e :| e in entries && Eligible(called, e) && e.name == x;
        if e != last {
          assert e in init;
        }
      }
    }
  }

  /** An unknown kind has no candidates. */
  lemma CandidatesUnknown(called: string, entries: seq<DirEntry>)
    requires !IsKnown(called)
    ensures Candidates(called, entries) == []
  {
  }

  // ---------------------------------------------------------------------
  // Command construction
  // ---------------------------------------------------------------------

  /** `strconv.FormatBool`. */
  function BoolText(b: bool): string {
    if b then "true" else "false"
  }

  /** The value token an option contributes after its flag, if any. */
  function ValueTokens(v: Value): seq<string> {
    match v
    case Str(s) => [s]
    case Bool(b) => [BoolText(b)]
    case Other => []
  }

  /** The tokens one option contributes: `--key`, then its value token. */
  function OptionTokens(key: string, v: Value): seq<string> {
    ["--" + key] + ValueTokens(v)
  }

  predicate HasValue(v: Value) {
    !v.Other?
  }

  /** `order` lists every key of `options` exactly once. */
  ghost predicate IsEnumeration(options: map<string, Value>, order: seq<string>) {
    (forall i, j :: 0 <= i < j < |order| ==> order[i] != order[j]) &&
    (forall k :: k in order <==> k in options)
  }

  /** Every key visited is a key of `options`. */
  predicate KeysIn(options: map<string, Value>, order: seq<string>) {
    forall i :: 0 <= i < |order| ==> order[i] in options
  }

  /** The optional flags, with the options visited in the order `order`. */
  function Flags(options: map<string, Value>, order: seq<string>): seq<string>
    requires KeysIn(options, order)
  {
    if order == [] then []
    else
      var k := order[|order| - 1];
      Flags(options, order[..|order| - 1]) + OptionTokens(k, options[k])
  }

  /** Visiting one more key appends that option's tokens. */
  lemma FlagsStep(options: map<string, Value>, order: seq<string>, i: nat)
    requires KeysIn(options, order) && i < |order|
    ensures Flags(options, order[..i + 1]) == Flags(options, order[..i]) + OptionTokens(order[i], options[order[i]])
  {
    assert order[..i + 1][..i] == order[..i];
  }

  /** The four leading tokens for a known kind. */
  function Prefix(called: string, target: string): (r: seq<string>)
    requires IsKnown(called)
    ensures |r| == 4 && r[3] == target
  {
    if called == SeedApply then ["seed", "apply", "--file", target]
    else if called == MigrateApply then ["migrate", "apply", "--version", target]
    else ["migrate", "delete", "--version", target]
  }

  /** The number of options, among those of `order`, that carry a value token. */
  function CountValued(options: map<string, Value>, order: seq<string>): nat
    requires KeysIn(options, order)
  {
    if order == [] then 0
    else
      var k := order[|order| - 1];
      CountValued(options, order[..|order| - 1]) + (if HasValue(options[k]) then 1 else 0)
  }

  /** The keys of the options whose value is a string or a bool. */
  function ValuedKeys(options: map<string, Value>): set<string> {
    set k | k in options && HasValue(options[k])
  }

  /** Each option contributes its flag plus one token if it has a value. */
  lemma {:induction false} FlagsLength(options: map<string, Value>, order: seq<string>)
    requires KeysIn(options, order)
    ensures |Flags(options, order)| == |order| + CountValued(options, order)
  {
    if order != [] {
      FlagsLength(options, order[..|order| - 1]);
    }
  }

  /** Over distinct keys, the count of valued options is the size of their set. */
  lemma {:induction false} CountValuedCard(options: map<string, Value>, order: seq<string>)
    requires KeysIn(options, order)
    requires forall i, j :: 0 <= i < j < |order| ==> order[i] != order[j]
    ensures CountValued(options, order) == |set k | k in order && k in options && HasValue(options[k])|
  {
    if order != [] {
      var init := order[..|order| - 1];
      var last := order[|order| - 1];
      CountValuedCard(options, init);
      assert order == init + [last];
      assert last !in init by {
        forall i | 0 <= i < |init| ensures init[i] != last {
          assert init[i] == order[i];
        }
      }
      var s0 := set k | k in init && k in options && HasValue(options[k]);
      var s1 := set k | k in order && k in options && HasValue(options[k]);
      if HasValue(options[last]) {
        assert s1 == s0 + {last};
      } else {
        assert s1 == s0;
      }
    }
  }

  /** A sequence without repetitions has as many elements as its set. */
  lemma {:induction false} DistinctCard(order: seq<string>)
    requires forall i, j :: 0 <= i < j < |order| ==> order[i] != order[j]
    ensures |set k | k in order| == |order|
  {
    if order != [] {
      var init := order[..|order| - 1];
      var last := order[|order| - 1];
      DistinctCard(init);
      assert order == init + [last];
      assert last !in init by {
        forall i | 0 <= i < |init| ensures init[i] != last {
          assert init[i] == order[i];
        }
      }
      assert (set k | k in order) == (set k | k in init) + {last};
    }
  }

  /**
   * A built command has the four prefix tokens, one flag per option and one
   * value token per string or bool option, whatever the iteration order.
   */
  lemma CommandLength(called: string, target: string, options: map<string, Value>, order: seq<string>)
    requires IsKnown(called) && IsEnumeration(options, order)
    ensures |Prefix(called, target) + Flags(options, order)| == 4 + |options| + |ValuedKeys(options)|
  {
    FlagsLength(options, order);
    CountValuedCard(options, order);
    DistinctCard(order);
    assert (set k | k in order) == options.Keys;
    assert (set k | k in order && k in options && HasValue(options[k])) == ValuedKeys(options);
  }

  /** `t` occurs in `f` starting at position `j`. */
  predicate OccursAt(t: seq<string>, f: seq<string>, j: int) {
    0 <= j && j + |t| <= |f| && f[j..j + |t|] == t
  }

  /** Every option of `order` appears as `--key` immediately followed by its value token. */
  lemma {:induction false} FlagsHasOption(options: map<string, Value>, order: seq<string>, key: string)
    requires KeysIn(options, order) && key in order
    ensures exists j :: OccursAt(OptionTokens(key, options[key]), Flags(options, order), j)
  {
    var init := order[..|order| - 1];
    var last := order[|order| - 1];
    var f0 := Flags(options, init);
    var f := Flags(options, order);
    var t := OptionTokens(key, options[key]);
    assert f == f0 + OptionTokens(last, options[last]);
    if key == last {
      assert OccursAt(t, f, |f0|);
    } else {
      assert order == init + [last];
      assert key in init;
      FlagsHasOption(options, init, key);
      var j :| OccursAt(t, f0, j);
      assert f[j..j + |t|] == f0[j..j + |t|];
      assert OccursAt(t, f, j);
    }
  }

  lemma MigrateApplyExample()
    ensures Prefix(MigrateApply, "0007") + Flags(map["database-name" := Str("app")], ["database-name"])
            == ["migrate", "apply", "--version", "0007", "--database-name", "app"]
  {
    var opts := map["database-name" := Str("app")];
    assert ["database-name"][..0] == [];
    assert "--" + "database-name" == "--database-name";
    assert Flags(opts, ["database-name"]) == OptionTokens("database-name", Str("app"));
  }

  /**
   * In a built command, every option appears as `--key` directly followed by
   * its value token, whatever the iteration order.
   */
  lemma CommandHasOption(called: string, target: string, options: map<string, Value>, order: seq<string>, key: string)
    requires IsKnown(called) && IsEnumeration(options, order) && key in options
    ensures exists j :: OccursAt(OptionTokens(key, options[key]), Prefix(called, target) + Flags(options, order), j)
  {
    var p := Prefix(called, target);
    var f := Flags(options, order);
    var t := OptionTokens(key, options[key]);
    FlagsHasOption(options, order, key);
    var j :| OccursAt(t, f, j);
    assert (p + f)[|p| + j..|p| + j + |t|] == f[j..j + |t|];
    assert OccursAt(t, p + f, |p| + j);
  }

  /**
   * Seed apply with a string and a bool option: whichever order the map is
   * visited in, the command starts with the seed prefix, has eight tokens,
   * and holds `--database-name app` and `--dry-run true` as adjacent pairs.
   */
  lemma SeedApplyExample(order: seq<string>)
    requires IsEnumeration(map["database-name" := Str("app"), "dry-run" := Bool(true)], order)
    ensures var c := Prefix(SeedApply, "001_users.sql") +
                     Flags(map["database-name" := Str("app"), "dry-run" := Bool(true)], order);
            c[..4] == ["seed", "apply", "--file", "001_users.sql"] && |c| == 8 &&
            (exists j :: OccursAt(["--database-name", "app"], c, j)) &&
            (exists j :: OccursAt(["--dry-run", "true"], c, j))
  {
    var opts := map["database-name" := Str("app"), "dry-run" := Bool(true)];
    SeedApplyExampleShape(opts, order);
    assert "--" + "database-name" == "--database-name";
    assert "--" + "dry-run" == "--dry-run";
    var c := Prefix(SeedApply, "001_users.sql") + Flags(opts, order);
    assert OptionTokens("database-name", opts["database-name"]) == ["--database-name", "app"];
    assert OptionTokens("dry-run", opts["dry-run"]) == ["--dry-run", "true"];
    CommandHasOption(SeedApply, "001_users.sql", opts, order, "database-name");
    var j1 :| OccursAt(OptionTokens("database-name", opts["database-name"]), c, j1);
    assert OccursAt(["--database-name", "app"], c, j1);
    CommandHasOption(SeedApply, "001_users.sql", opts, order, "dry-run");
    var j2 :| OccursAt(OptionTokens("dry-run", opts["dry-run"]), c, j2);
    assert OccursAt(["--dry-run", "true"], c, j2);
  }

  /** The prefix and length part of `SeedApplyExample`. */
  lemma SeedApplyExampleShape(opts: map<string, Value>, order: seq<string>)
    requires opts == map["database-name" := Str("app"), "dry-run" := Bool(true)]
    requires IsEnumeration(opts, order)
    ensures |Prefix(SeedApply, "001_users.sql") + Flags(opts, order)| == 8
  {
    CommandLength(SeedApply, "001_users.sql", opts, order);
    assert ValuedKeys(opts) == opts.Keys;
    assert opts.Keys == {"database-name", "dry-run"};
  }

  // ---------------------------------------------------------------------
  // The interactive finder contract
  // ---------------------------------------------------------------------

  /** The finder only ever returns an index into the list it was shown. */
  ghost predicate SelectorInRange(choose: seq<string> -> Selection) {
    forall names :: choose(names).Chosen? ==> choose(names).index < |names|
  }

  // ---------------------------------------------------------------------
  // The command object
  // ---------------------------------------------------------------------

  class HasuraCmd {
    const called: string
    const options: map<string, Value>
    var command: seq<string>
    var fileNames: seq<string>
    var target: string

    /** `NewHasuraCmd`: a fresh command with no candidates, target or arguments. */
    constructor (called: string, options: map<string, Value>)
      ensures this.called == called && this.options == options
      ensures command == [] && fileNames == [] && target == ""
    {
      this.called := called;
      this.options := options;
      command := [];
      fileNames := [];
      target := "";
    }

    /** `Run`: list, select, resolve, build; stops at the first error. */
    method Run(listing: DirListing, choose: seq<string> -> Selection, order: seq<string>) returns (result: RunResult)
      requires SelectorInRange(choose)
      requires IsEnumeration(options, order)
      modifies this`fileNames, this`target, this`command
      ensures listing.Unreadable? ==> result == Failed(listing.err)
      ensures listing.Listed? && listing.entries == [] ==> result == Failed(NoFile)
      ensures listing.Unreadable? || listing.entries == [] ==>
                fileNames == old(fileNames) && target == old(target) && command == old(command)
      ensures listing.Listed? && listing.entries != [] ==>
                fileNames == old(fileNames) + Candidates(called, listing.entries)
      ensures listing.Listed? && listing.entries != [] && choose(fileNames).Aborted? ==>
                result == Failed(choose(fileNames).err) && target == old(target) && command == old(command)
      ensures listing.Listed? && listing.entries != [] && choose(fileNames).Chosen? ==>
                target == ResolveTarget(called, fileNames[choose(fileNames).index]) &&
                result == Executed(command) &&
                (target == "" || !IsKnown(called) ==> command == old(command)) &&
                (target != "" && IsKnown(called) ==> command == Prefix(called, target) + Flags(options, order))
    {
      var status := SetFileNames(listing);
      if status.Failure? {
        return Failed(status.err);
      }
      status := SetTarget(choose(fileNames));
      if status.Failure? {
        return Failed(status.err);
      }
      SetCommand(order);
      result := Executed(command);
    }

    /** `setCommand`: the argument vector for the target, or no change. */
    method SetCommand(order: seq<string>)
      requires IsEnumeration(options, order)
      modifies this`command
      ensures target == "" || !IsKnown(called) ==> command == old(command)
      ensures target != "" && IsKnown(called) ==> command == Prefix(called, target) + Flags(options, order)
    {
      if target == "" {
        return;
      }
      if called == SeedApply {
        command := ["seed", "apply", "--file", target];
      } else if called == MigrateApply {
        command := ["migrate", "apply", "--version", target];
      } else if called == MigrateDelete {
        command := ["migrate", "delete", "--version", target];
      } else {
        return;
      }
      AppendFlags(order);
    }

    /** The `for k, v := range h.options` loop of `setCommand`, visiting keys in `order`. */
    method AppendFlags(order: seq<string>)
      requires KeysIn(options, order)
      modifies this`command
      ensures command == old(command) + Flags(options, order)
    {
      assert order[..0] == [];
      var i := 0;
      while i < |order|
        invariant 0 <= i <= |order|
        invariant command == old(command) + Flags(options, order[..i])
      {
        var k := order[i];
        var v := options[k];
        FlagsStep(options, order, i);
        ghost var before := command;
        command := command + ["--" + k];
        if v.Str? {
          command := command + [v.s];
        } else if v.Bool? {
          command := command + [BoolText(v.b)];
        }
        assert command == before + OptionTokens(k, v);
        i := i + 1;
      }
      assert order[..i] == order;
    }

    /** `setTarget`: ask the finder for a name and resolve it. */
    method SetTarget(pick: Selection) returns (status: Status)
      requires pick.Chosen? ==> pick.index < |fileNames|
      modifies this`target
      ensures status.Failure? <==> pick.Aborted?
      ensures pick.Aborted? ==> status.err == pick.err && target == old(target)
      ensures pick.Chosen? ==> fileNames[pick.index] in fileNames &&
                               target == ResolveTarget(called, fileNames[pick.index])
    {
      var fileName;
      fileName, status := FindOne(pick);
      if status.Failure? {
        return;
      }
      if IsMigrate(called) {
        target := TrimVersion(fileName);
      } else {
        target := fileName;
      }
    }

    /** `setFileNames`: append the eligible names of a non-empty listing. */
    method SetFileNames(listing: DirListing) returns (status: Status)
      modifies this`fileNames
      ensures listing.Unreadable? ==> status == Failure(listing.err)
      ensures listing.Listed? && listing.entries == [] ==> status == Failure(NoFile)
      ensures listing.Listed? && listing.entries != [] ==> status == Success
      ensures status.Success? ==> fileNames == old(fileNames) + Candidates(called, listing.entries)
      ensures status.Failure? ==> fileNames == old(fileNames)
    {
      if listing.Unreadable? {
        return Failure(listing.err);
      }
      var files := listing.entries;
      if |files| == 0 {
        return Failure(NoFile);
      }
      var i := 0;
      while i < |files|
        invariant 0 <= i <= |files|
        invariant fileNames == old(fileNames) + Candidates(called, files[..i])
      {
        var file := files[i];
        if file.isDir {
          if IsMigrate(called) {
            fileNames := fileNames + [file.name];
          }
        }
        if !file.isDir && called == SeedApply {
          fileNames := fileNames + [file.name];
        }
        assert files[..i + 1][..i] == files[..i];
        i := i + 1;
      }
      assert files[..i] == files;
      status := Success;
    }

    /** `findOne`: the name at the finder's index, or the finder's error. */
    method FindOne(pick: Selection) returns (name: string, status: Status)
      requires pick.Chosen? ==> pick.index < |fileNames|
      ensures pick.Aborted? ==> status == Failure(pick.err) && name == ""
      ensures pick.Chosen? ==> status == Success && name in fileNames && name == fileNames[pick.index]
    {
      match pick
      case Aborted(err) =>
        return "", Failure(err);
      case Chosen(i) =>
        return fileNames[i], Success;
    }
  }
}
