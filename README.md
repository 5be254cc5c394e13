# DOA provisioning core, modelled in Dafny

DOA ("Development, Operations and Automation") is a set of Ruby helpers around Vagrant. Reading a
YAML settings file, they bring up one or more guest machines and provision them with Puppet. This
project models the part of DOA that turns a machine's settings into Puppet/Hiera data, plus the
host-side helpers it relies on. It then proves what that code promises, and what it does instead
where the two differ.

* **Tools** (`tools.rb`):
  * `check_get`, which fetches and type-checks one setting;
  * the `valid_*?` validators and the regular expressions behind them;
  * `format_yaml`;
  * the default lookups `get_puppet_mod_def_value` and `get_puppet_mod_prioritized_def_value`;
  * `recursive_get`;
  * the `Hash` extensions `deep_merge`, `except`, `except!` and `recursive_set!`;
  * the `empty?` that tools.rb adds to nil, booleans and numbers.
* **The schema resolver** (`puppet_module.rb`). This is the engine every Puppet module class
  inherits. `set_params` walks a module's `@supported` schema against the provided settings:
  * it checks exclusions, `:allow` lists and validators, and runs `:cb_validate`/`:cb_process`
    callbacks;
  * it substitutes `:doa_def`/`:mod_def` defaults through `get_default_value`;
  * it writes the Hiera queue, turning flag hashes into quoted pairs and quoting the scalars that
    need it.
  
  `setup` frames the walk with the librarian modules and Hiera classes; `process_version` settles
  version branches.
* **The module classes.**
  * MariaDB: `process_param`, `include_hieraclass`, `custom_setup`, and its server/cluster schema.
  * WordPress: `setup`'s input wrapping, `get_install_dir`, `add_excludes`, `setup_assets`, and the
    debug switches of its schema.
  * Nginx: `set_hiera_param`, `custom_setup`'s grouping of WordPress projects into virtual hosts,
    and the package/service part of its schema.
  * Node.js: the nvm, versions and packages parts of its schema.
  * PHP, CouchDB and Meteor: the older "whitelist plus defaults" setups.
* **Host side.**
  * `Host.calc_guest_defaults` and `Host.get_os`;
  * the `SSH` command builders and `SSH.escape`;
  * the `Sync` class: `initialize`, `reload_to`, `setup_listener_for_wordpress_site` and
    `create_listener`.

## How the model is built

Ruby values are one datatype, `Values.Value` (nil, booleans, integers, strings, symbols, arrays,
hashes). A hash is an association list of `Pair`s in insertion order, because `'*'` lookups and
`each` depend on that order.

Every way the Ruby code stops is an `Err` of `Outcome.Result`:
* a `SystemExit` after an L10n message;
* a `NoMethodError` on nil;
* a `TypeError` from `Regexp =~`;
* an `ArgumentError` from a call with the wrong arity.

Proved properties cover the abort paths as well as the normal results.

Each module class's class variables (`@provided`, `@branch`, `@version`, `@req_branches`) and the
calls it enqueues are the state `Puppet.St`. Each operation is a function over that state. In Ruby
these are class methods that update their class variables in place. The operations that loop, or
that the source runs as entry points updating that state, are also methods with the source's loops,
each proved equal to its function:
  * on `Puppet.ModuleState`: `Resolver.SetParamsIn`, `Resolver.ResolveIn`, `Resolver.SetupIn`,
    `Mariadb.ProcessParamIn`, `Wordpress.SetupAssetsIn`;
  * on `Whitelist.SwState`: `Php.SetupIn`, `CouchDb.SetupIn`, `Meteor.SetupIn`,
    `Whitelist.ApplyRounds`;
  * on `Nginx.Machine`: `Nginx.EmitIn`, `Nginx.CustomSetupIn`, `Nginx.EnqueueRoots`;
  * the classes `Sync.Syncer`, `Hashes.MutableHash` and `Wordpress.Presync`, whose methods update
    their own fields.

The other operations are functions only. Some change nothing: `Puppet.GetDefaultValue`,
`Puppet.Prioritized`, `Puppet.Lookup`, `Puppet.ModDefValue` (with the loop `Puppet.ModDefValueOf`)
and `Puppet.VersionOf`. The others are the callbacks the schema walk dispatches:
`Puppet.ProcessVersion`, `Mariadb.CopyToChildren`, `Mariadb.RequestedBranch`,
`Mariadb.VersionStep` and `Mariadb.IncludeHieraclass`. These map the old state to the new one,
and `Resolver.SetParamsIn` stores their result.

The `enqueue_*` calls into `DOA::Provisioner::Puppet` are modelled as an append-only list of
`Call`s. Everything else outside the core becomes a parameter:
* the guest's environment, platform, project and memory;
* the validators the model does not define itself (IPv6, URL and the two Puppet-interpolable
  tests), which are fields of `Validators.Library`; the package-name and Unix path validators are
  defined in `Validators`;
* the host's platform and memory figures;
* `Pathname` and `File`.

The source's `-` on arrays, `gsub`, `split` and `to_i` are written out in `Strings`, `Patterns`
and `Resolver`.

The resolver behaves in ways that are easy to misread, and the model keeps each of them:

* A parameter nobody provided is never validated: its default goes to the queue as it is
  (`Resolver.AbsentLeaf`).
* Membership in `:allow` is not enough on its own. A value must pass `:allow` and then one of its
  validators, so a listed keyword that its validators refuse still aborts
  (`Resolver.AllowPasses`, `Resolver.InvalidAborts`).
* `set_params` walks the schema only, so a provided key the schema does not know is ignored.
  Only the PHP, CouchDB and Meteor setups check their keys (`Whitelist.HashPassesExactly`).
* A `:children_hash` value is checked only when it is provided; an absent one writes nothing
  (`Resolver.ChildrenHashAbsent`).
* A platform map that lacks the current key does not stop the run. `get_default_value` prints
  "error 1", "error 2" or "error 3" (not modelled) and goes on with a nil default
  (`Puppet.PlatformDescent`, `Puppet.EnvironmentFamilyReadsTypedMap`). Its `config['default']`
  reads a string key the symbol-keyed schema entries do not have, so a family the map does not
  list gets the whole map back (`Puppet.UnlistedFamilyGetsWholeMap`).
* The `enqueue_*` methods are not part of the model, so whether repeating a call is harmless is
  not known here. The model's call list only grows, and every lemma about it is stated as "these
  calls are appended in this order".

Several things the code does as written are kept in the model:

* `VALIDATORS` has no `:flag`.
* `valid_hash?` and `valid_float?` do not exist, so a `:hash` or `:float` entry raises
  `NoMethodError` (`Validators.Accepts`).
* MSG_WRONG_VALUE has no message, so `check_get` returns nil for a malformed integer string and
  carries on (`CheckGet.WrongValueNeverAborts`).
* MariaDB's `process_param` reads the provided group of its parent even when that group is
  absent, and then raises `NoMethodError`.
* `process_version` and MariaDB's `process_param` take the version from a match of RGX_SEMVER.
  That pattern misses a version with a pre-release and no build metadata, so such a version
  raises `NoMethodError` (`Puppet.ProcessVersionRaisesUncaptured`, `Mariadb.UncapturedVersionRaises`).
* `valid_ipv4_port?` uses the port alternative of RGX_IPV4_PORT as written
  (`Patterns.PortTokenAsWrittenMisses`).
* `create_listener` in `sync.rb` uses `Setting::PROJECTS`, `PROJECT_STACK` and
  `PROJECT_WWW_ROOT`. `settings.rb` does not define them, so as written the call raises
  `NameError`. Their values are the parameter `Sync.ProjectKeys` here.
* `settings.rb` does not define `PM_WP`, `PM_PHP`, `PROJECTS`, `SW_NGINX_LABEL`, `SW_NODEJS_LABEL`
  or `SW_VERSION` either. The Nginx, WordPress and NodeJS classes read one of them into `@label`
  in their class bodies (`nginx.rb:51`, `wordpress.rb:14`, `nodejs.rb:14`), so as written loading
  those files raises `NameError`. The model takes what the constants evidently stand for as
  parameters: each module's label is the `name` of its context, and `Nginx.CustomSetup` gets
  `pmWp`, `projectsKey` and `swLabel`. Everything the model proves about these modules holds
  once the constants are defined.
* `Host.get_os` never answers 'Unix': `linux?` is `unix? and not mac?`, and `unix?` is
  `!windows?` (`Host.UnixUnreachable`).

The Findings below list the defects that have a clear intended behaviour.

## Model

| member | source | states |
|---|---|---|
| CheckGet.Report | provision/vagrant/doa/tools.rb:134-158 | A message, and with it an abort, exists only for a context of two to five entries; otherwise the classified value comes back |
| CheckGet.CheckGetOf | provision/vagrant/doa/tools.rb:54-160 | What comes back is nil, the default, the setting, its keyed entry or the integer an all-digit string spells; a missing-value or wrong-type abort happens only for a context of two to five entries; a present setting of an unsupported type raises NameError (the abort message splats `args` before it is assigned), and only such a setting does |
| CheckGet.DefaultStandsIn | provision/vagrant/doa/tools.rb:56-61 | A missing setting gives the default unchecked when there is one, and otherwise aborts as missing (context of 2..5) or gives nil |
| CheckGet.IntegerWithinBounds | provision/vagrant/doa/tools.rb:84-86 | An integer that comes back for a present setting is an Integer within vmin..vmax |
| CheckGet.DigitStringConverted | provision/vagrant/doa/tools.rb:73-78 | An all-digit string within the bounds comes back as the integer it spells |
| CheckGet.WrongValueNeverAborts | provision/vagrant/doa/tools.rb:74-75 | A non-digit or out-of-bounds string gives nil without aborting, since MSG_WRONG_VALUE has no message |
| CheckGet.IntegerOutOfBoundsAborts | provision/vagrant/doa/tools.rb:84-86 | An out-of-bounds Integer becomes MSG_WRONG_TYPE: it aborts in a context of 2..5 entries and gives nil otherwise |
| CheckGet.EmptyIsMissing | provision/vagrant/doa/tools.rb:87-90 | With empty false an empty string, array or hash is reported missing; with empty true it comes back unchanged |
| CheckGet.CheckGetIn | provision/vagrant/doa/tools.rb:54-160 | The result is CheckGetOf's, and the context array changes only in its last slot, which gets the key exactly on the keyed-hash path |
| Hashes.MergeFromGet | provision/vagrant/doa/tools.rb:460-463 | Merging b's entries from i on: a key takes b's later value (deep-merged with the accumulated one when both are hashes), other keys keep theirs |
| Hashes.DeepMergeGet | provision/vagrant/doa/tools.rb:460-463 | deep_merge keeps every key of either side; a key in b takes b's value, merged deeply with a's when both are hashes |
| Hashes.MergeFromUnique | provision/vagrant/doa/tools.rb:460-463 | deep_merge keeps a hash with one entry per key |
| Hashes.ExceptAll | provision/vagrant/doa/tools.rb:479-492 | The entries left once every listed key is deleted are entries of the original |
| Hashes.ExceptAllGet | provision/vagrant/doa/tools.rb:479-492 | Exactly the listed keys disappear; every other key keeps its value |
| Hashes.ExceptAllSnoc | provision/vagrant/doa/tools.rb:489-492 | Deleting one more key is one more delete on the hash left so far |
| Hashes.RecursiveSetOthers | provision/vagrant/doa/tools.rb:494-502 | recursive_set! leaves every key other than the first of the path untouched |
| Hashes.FirstResolvedFinds | provision/vagrant/doa/tools.rb:424-434 | '*' yields the first sibling's value that resolves, after only the siblings before it were tried, and nil exactly when none resolves |
| Hashes.WildcardNoRest | provision/vagrant/doa/tools.rb:424-434 | With nothing after the '*' no sibling resolves |
| Hashes.TrailingWildcardYieldsNil | provision/vagrant/doa/tools.rb:424-434 | A '*' as the last key never finds anything |
| Hashes.StopsAtLastKey | provision/vagrant/doa/tools.rb:435-439 | The walk stops at the first key equal to the last one, whatever keys follow it |
| Hashes.SetThenGet | provision/vagrant/doa/tools.rb:494-502 | What recursive_set! stores along a path without '*', whose last key is not `empty?` and appears only at the end, recursive_get finds along the same path |
| Hashes.SetThenWalk | provision/vagrant/doa/tools.rb:494-502 | After recursive_set! the walk along the same path (no '*', last key not `empty?` and only at the end) reaches the stored value |
| Hashes.EmptyTailDropped | provision/vagrant/doa/tools.rb:494-502 | Because `!keys.empty?` uses the Array override of tools.rb:631-634, keys that are all nil, '' or empty at the end of the path are dropped: the value lands where the path without them leads |
| Hashes.EmptyLastKeyMissesRoundTrip | provision/vagrant/doa/tools.rb:420-447 | The path ['a', ''] stores under 'a', and recursive_get along the same path steps into the stored integer and raises NoMethodError |
| Hashes.RecursiveGet | provision/vagrant/doa/tools.rb:420-447 | The loop over the keys gives what the path's value is, '*' and early stops included |
| Hashes.MutableHash.ExceptBang | provision/vagrant/doa/tools.rb:489-492 | except! leaves the receiver holding its entries without the given keys, and returns the receiver itself |
| Hashes.MutableHash.Except | provision/vagrant/doa/tools.rb:479-481 | except returns the entries without the keys and leaves the receiver unchanged |
| Hashes.MutableHash.RecursiveSetBang | provision/vagrant/doa/tools.rb:494-502 | recursive_set! walks down while the keys left are not `empty?` in the sense of the Array override, and updates the receiver to what RecursiveSet gives, or reports the error without changing it |
| Hashes.MutableHash.SortKeys | provision/vagrant/doa/tools.rb:384 | Re-inserting every key in sorted order leaves the same entries, ordered by key |
| Hashes.KeyNotInPrefix | provision/vagrant/doa/tools.rb:384 | A key of the sorted list differs from every key before it |
| Hashes.SortStepValue | provision/vagrant/doa/tools.rb:384 | The entry moved to the end still holds its original value |
| Hashes.SortStep | provision/vagrant/doa/tools.rb:384 | One step of the re-insertion loop moves one more sorted key to the end |
| Hashes.SortedCoversAll | provision/vagrant/doa/tools.rb:384 | Once every sorted key is deleted nothing of the original is left |
| Ordering.SortByKey | provision/vagrant/doa/tools.rb:384 | keys.sort gives a permutation of the entries |
| Ordering.SortByKeySorted | provision/vagrant/doa/tools.rb:384 | Sorting keys that are pairwise comparable and distinct yields ascending order |
| Ordering.InsertKeepsSorted | provision/vagrant/doa/tools.rb:384 | Inserting a comparable new key into a sorted list keeps it sorted |
| Yaml.Indent | provision/vagrant/doa/tools.rb:376 | The indentation is two spaces per level |
| Yaml.ScalarsAfterSpace | provision/vagrant/doa/tools.rb:377-378 | A string or integer is written after one space |
| Yaml.ArrayLines | provision/vagrant/doa/tools.rb:379-381 | An empty array gives no text; otherwise the text starts with a new line, the indentation and '- ' |
| Yaml.NoTextForOthers | provision/vagrant/doa/tools.rb:375-390 | nil, booleans and symbols give no text (the method returns nil) |
| Yaml.IncomparableKeysRaise | provision/vagrant/doa/tools.rb:384 | A hash with two keys that `<=>` cannot compare (arrays compared item by item) raises |
| Yaml.SortedPermutationUnique | provision/vagrant/doa/tools.rb:384 | Two key-sorted lists of the same entries are the same list |
| Yaml.HashTextIgnoresInsertionOrder | provision/vagrant/doa/tools.rb:382-389 | The text of a hash does not depend on the order its entries were inserted in |
| Yaml.HashText | provision/vagrant/doa/tools.rb:382-389 | A hash's text is the text of its entries in sorted key order, or the first error of a value |
| Yaml.EntriesStep | provision/vagrant/doa/tools.rb:385-387 | Each entry adds a line of the indentation, the key, ':' and its value's text one level deeper |
| Yaml.FormatHashIn | provision/vagrant/doa/tools.rb:382-389 | On a hash object the result is the YAML text of the hash and fails when that does; the object's entries end up key-sorted when the keys compare, and are left as they were otherwise |
| Validators.MatchLeft | provision/vagrant/doa/tools.rb:276 | A pattern match with the pattern on the left: nil does not match, a string or symbol matches when its text does, any other value raises |
| Validators.ItemChecksAt | provision/vagrant/doa/tools.rb:221-235 | The per-item answer of an array validator at position j is the item validator's answer on element j |
| Validators.AllAcceptedAnswers | provision/vagrant/doa/tools.rb:221-235 | When no item raises, an array is accepted exactly when every item is |
| Validators.Accepts | provision/vagrant/doa/tools.rb:162-369 | valid_float? and valid_hash? do not exist and always raise; the array, auto, boolean, chmod, flag, hash-flag, hash-value, integer, level, port, semver, string and URL validators answer on any value without raising |
| Validators.ValidPortExactly | provision/vagrant/doa/tools.rb:333-340 | valid_port? holds exactly for the Integers and the all-digit strings from 0 to 65535 |
| Validators.ValidPortComplete | provision/vagrant/doa/tools.rb:333-340 | Every port number is accepted both as an Integer and in its decimal spelling |
| Validators.ValidPortRejects | provision/vagrant/doa/tools.rb:333-340 | A negative or too large Integer, and any value neither Integer nor String, is never a port |
| Validators.ValidBooleanExactly | provision/vagrant/doa/tools.rb:196-199 | valid_boolean? holds exactly for true, false, 'true' and 'false' |
| Validators.ValidFlagExactly | provision/vagrant/doa/tools.rb:186-189 | valid_flag? holds exactly for 'on' and 'off' |
| Validators.HashFlagsAreHashValues | provision/vagrant/doa/tools.rb:162-184 | A valid hash of flags is also a valid hash of values |
| Validators.ValidArrayIgnoresEmptyElements | provision/vagrant/doa/tools.rb:191-194 | valid_array? holds exactly for the arrays with at least one non-empty element |
| Validators.ValidArrayOfBlankString | provision/vagrant/doa/tools.rb:191-194 | [""] and [nil, []] are refused, ["a"] accepted |
| Validators.ValidChmodExactly | provision/vagrant/doa/tools.rb:216-219 | valid_chmod? holds exactly for a four-character string: '0' and three octal digits |
| Validators.ValidLevelExactly | provision/vagrant/doa/tools.rb:206-209 | valid_level? holds exactly for an odd-length string with '1' or '2' at even positions and ':' at odd ones |
| Validators.LevelTailExactly | provision/vagrant/doa/tools.rb:16 | The repeated tail of RGX_LEVEL is an even-length run of ':' and a level digit |
| Validators.Ipv4CaptureCheckRedundant | provision/vagrant/doa/tools.rb:274-282 | The capture check of valid_ipv4? never rejects a text RGX_IPV4 matched: it accepts exactly the dotted quads of bytes |
| Validators.SemverValidatorsExactly | provision/vagrant/doa/tools.rb:364-369 | valid_semver_version? accepts exactly RGX_SEMVER_VERSION's texts and valid_semver_branch? exactly RGX_SEMVER_BRANCH's |
| Validators.ValidVersionNonText | provision/vagrant/doa/tools.rb:349-363 | A value of neither String nor Symbol type passes valid_version? exactly through the allowed list or the keywords |
| Validators.ArrayIpv4OfStrings | provision/vagrant/doa/tools.rb:221-235 | An array of strings is accepted by valid_array_ipv4? exactly when every string is an IPv4 address; it never raises |
| Validators.StringAnswers | provision/vagrant/doa/tools.rb:221-268 | An array validator accepts exactly the arrays of strings whose every string its item validator accepts |
| Validators.Ipv4StringAnswer | provision/vagrant/doa/tools.rb:221-235 | valid_ipv4? on the string at position j answers whether it is an address |
| Validators.Ipv4OfString | provision/vagrant/doa/tools.rb:274-282 | valid_ipv4? on a string answers the capture check of RGX_IPV4 |
| Patterns.OctetIsByte | provision/vagrant/doa/tools.rb:27 | An octet of RGX_IPV4 is one to three digits, and a three-digit octet is 100 to 255 without a leading zero |
| Patterns.OctetBelow256 | provision/vagrant/doa/tools.rb:27 | Every octet RGX_IPV4 matches is a number below 256 |
| Patterns.PortTokenAsWrittenMisses | provision/vagrant/doa/tools.rb:28-29 | The port alternative as written rejects 65000 and accepts the six-digit 650000 |
| Patterns.PortTokenComplete | provision/vagrant/doa/tools.rb:28-29 | The corrected port alternative accepts the decimal spelling of every port 0..65535 |
| Patterns.SemverAsWrittenMissesPreRelease | provision/vagrant/doa/tools.rb:32-34 | '1.2.3-rc' is a semantic version RGX_SEMVER_VERSION matches and the corrected RGX_SEMVER accepts; RGX_SEMVER as written does not match it |
| Patterns.PreReleaseNotCoreNorBranch | provision/vagrant/doa/tools.rb:33-34 | '1.2.3-rc' is neither a plain version core nor a branch, the other alternatives of RGX_SEMVER |
| Patterns.SemverMinor | provision/vagrant/doa/tools.rb:36 | The RGX_SEMVER_MINOR capture is a proper prefix holding a dot and followed by a dot |
| Patterns.SemverStartsWithDigit | provision/vagrant/doa/tools.rb:32 | A version whose first character is not a digit ('v0.29.0') never matches RGX_SEMVER_VERSION |
| Patterns.DropX | provision/vagrant/doa/provisioner/puppet/mariadb.rb:282 | gsub(/\.[xX]/, '') never lengthens the text |
| Patterns.JoinOfSplit | provision/vagrant/doa/provisioner/puppet/puppet_module.rb:149-152 | Splitting a callback text on a one-character separator and joining back gives the text again |
| Patterns.LowerX | provision/vagrant/doa/provisioner/puppet/puppet_module.rb:300 | gsub('X', 'x') keeps the length of the text |
| Patterns.VersionCoreIsSemverVersion | provision/vagrant/doa/tools.rb:32-34 | A plain MAJOR.MINOR.PATCH core is a semantic version |
| Puppet.ModuleState.constructor | provision/vagrant/doa/provisioner/puppet/puppet_module.rb:61-69 | The class variables start as the given state |
| Puppet.ModuleState.Load | provision/vagrant/doa/provisioner/puppet/puppet_module.rb:61-69 | The class variables become the given state |
| Puppet.Lookup | provision/vagrant/doa/provisioner/puppet/puppet_module.rb:83 | An empty path gives the tree itself, a key missing or a step that is not a hash gives nil |
| Puppet.LookupSnoc | provision/vagrant/doa/provisioner/puppet/puppet_module.rb:83 | One more key reads one level further down from where the path led |
| Puppet.GetDefaultValue | provision/vagrant/doa/provisioner/puppet/puppet_module.rb:223-281 | Without an entry for the type the default is nil; a plain entry is the default itself |
| Puppet.PlainDefault | provision/vagrant/doa/provisioner/puppet/puppet_module.rb:255-257 | A default that is not a map is returned unchanged |
| Puppet.EnvironmentEntry | provision/vagrant/doa/provisioner/puppet/puppet_module.rb:233-249 | A map keyed by the current environment with a plain entry gives that entry |
| Puppet.PlatformDescent | provision/vagrant/doa/provisioner/puppet/puppet_module.rb:259-279 | A family-keyed map descends family, distribution, version to the deepest plain value, and gives nil at a missing distribution or version |
| Puppet.UnlistedFamilyGetsWholeMap | provision/vagrant/doa/provisioner/puppet/puppet_module.rb:228-254 | A map listing neither the environment nor the family is returned whole: its 'default' entry is never read |
| Puppet.EnvironmentFamilyReadsTypedMap | provision/vagrant/doa/provisioner/puppet/puppet_module.rb:236-240 | An environment map keyed by family is not descended into; the family is looked up in the map above it, nil when that map lacks it |
| Puppet.ModDefValueOf | provision/vagrant/doa/tools.rb:393-410 | The key loop returns the schema default of the entry the keys lead to, descending through :children or :children_hash, nil when a key is missing |
| Puppet.ModDefValueTopLevel | provision/vagrant/doa/tools.rb:393-410 | A single top-level key reaches its own schema entry's default |
| Puppet.ModDefValueInGroup | provision/vagrant/doa/tools.rb:393-410 | A key below a group reaches the entry inside the group's :children |
| Puppet.ModDefValueUnknownKey | provision/vagrant/doa/tools.rb:393-410 | A path whose first key the schema lacks has no default |
| Puppet.ModDefWalkFromNil | provision/vagrant/doa/tools.rb:397-405 | Once the walk has lost its way it stays at nil |
| Puppet.WithoutStar | provision/vagrant/doa/tools.rb:415 | path - ['*'] keeps the other keys in order and drops every '*' |
| Puppet.FirstNonEmpty | provision/vagrant/doa/tools.rb:412-419 | The first non-empty of four candidates wins, the last whatever it is |
| Puppet.PrioritizedOrder | provision/vagrant/doa/tools.rb:412-419 | When no lookup raises: the current stack, then the machine stack, then :doa_def and :mod_def of the schema without the '*' keys, first non-empty wins |
| Puppet.PrioritizedCurrentFirst | provision/vagrant/doa/tools.rb:413 | A non-empty value in the current stack wins without the other sources being read |
| Puppet.VersionBranch | provision/vagrant/doa/provisioner/puppet/puppet_module.rb:284-293 | A branch loses its '.x', a specific version gives MAJOR.MINOR, anything else is its own branch |
| Puppet.VersionOf | provision/vagrant/doa/provisioner/puppet/puppet_module.rb:300 | The version is the RGX_SEMVER capture with 'X' lowered; a value it does not capture raises |
| Puppet.ProcessVersionRaisesUncaptured | provision/vagrant/doa/provisioner/puppet/puppet_module.rb:285-300 | A semantic version RGX_SEMVER does not match passes the format and branch checks and then raises on the failed match |
| Puppet.ProcessVersion | provision/vagrant/doa/provisioner/puppet/puppet_module.rb:283-312 | The callback always returns nil; a nil version only clears the branch and changes nothing else; the enqueued calls only grow, by at most the one classname::version call |
| Puppet.DropXShortens | provision/vagrant/doa/provisioner/puppet/puppet_module.rb:286 | Dropping the '.x' of a branch shortens it |
| Puppet.BranchEndsInX | provision/vagrant/doa/tools.rb:33 | A text RGX_SEMVER_BRANCH matches ends in '.x' or '.X' |
| Puppet.ProcessVersionHolds | provision/vagrant/doa/provisioner/puppet/puppet_module.rb:295-305 | A specific version or a branch the allow list admits sets 'ensure' to 'held' and enqueues classname::version with the quoted version |
| Puppet.BranchShorter | provision/vagrant/doa/provisioner/puppet/puppet_module.rb:284-293 | The branch of a version or of a '.x' branch is shorter than the text it comes from |
| Puppet.ProcessVersionDisallowed | provision/vagrant/doa/provisioner/puppet/puppet_module.rb:295-310 | A branch the allow list does not name aborts with NOT_SUPPORTED_BRANCH |
| Puppet.Empty | provision/vagrant/doa/provisioner/puppet/puppet_module.rb:314-316 | The callback returns nil whatever its value, and changes nothing |
| Resolver.ParseText | provision/vagrant/doa/provisioner/puppet/puppet_module.rb:152-155 | A callback text that parses has at least one part before GLUE_PARAMS; its owner, method and arguments come from splitting at '@', ',' and '#' |
| Resolver.ParseTextOf | provision/vagrant/doa/provisioner/puppet/puppet_module.rb:152-155 | Parsing the text of a callback gives back its owner, method and arguments |
| Resolver.ValidatorNamed | provision/vagrant/doa/provisioner/puppet/puppet_module.rb:141 | A method name of DOA::Tools names a validator only when it has the form valid_<tag>?, and then names that tag's validator |
| Resolver.ValidatorMethodNamed | provision/vagrant/doa/provisioner/puppet/puppet_module.rb:141 | valid_<name>? names the validator of the tag name |
| Resolver.ValidatorTextParses | provision/vagrant/doa/provisioner/puppet/puppet_module.rb:141 | The validator text of a tag reads back as a call of DOA::Tools without arguments |
| Resolver.ValidatorTextBinds | provision/vagrant/doa/provisioner/puppet/puppet_module.rb:141-155 | The text built for an :expect tag reaches exactly that tag's validator |
| Resolver.Bind | provision/vagrant/doa/provisioner/puppet/puppet_module.rb:155 | An owner that is neither DOA::Tools nor the resolved class raises NameError; a validator is only reached through DOA::Tools without extra arguments |
| Resolver.Dispatch | provision/vagrant/doa/provisioner/puppet/puppet_module.rb:155 | A validator answers a boolean and leaves the state as it was |
| Resolver.DispatchExtends | provision/vagrant/doa/provisioner/puppet/puppet_module.rb:155 | No callback takes back a call already made |
| Resolver.AsList | provision/vagrant/doa/provisioner/puppet/puppet_module.rb:84-88 | A single :expect or :exclude value is treated as a one-element list |
| Resolver.Minus | provision/vagrant/doa/provisioner/puppet/puppet_module.rb:84 | Array minus Array keeps exactly the elements of the first list the second does not hold |
| Resolver.ExpectTexts | provision/vagrant/doa/provisioner/puppet/puppet_module.rb:139-146 | When no entry aborts there is one validator text per :expect entry |
| Resolver.ExpectTextsOfListed | provision/vagrant/doa/provisioner/puppet/puppet_module.rb:139-146 | When every :expect entry is in VALIDATORS, there is one validator text per entry, in order |
| Resolver.ExpectTextsUnlisted | provision/vagrant/doa/provisioner/puppet/puppet_module.rb:139-146 | The first :expect entry outside VALIDATORS aborts with UNSUPPORTED_VALUE, whatever the entries before it |
| Resolver.ValidatorTextsChoice | provision/vagrant/doa/provisioner/puppet/puppet_module.rb:135-147 | :cb_validate is used alone; no :expect, or one holding only empty entries, means no validator; otherwise the :expect texts |
| Resolver.SingleExpect | provision/vagrant/doa/provisioner/puppet/puppet_module.rb:146 | A single listed :expect tag gives its one validator |
| Resolver.InvokeValidator | provision/vagrant/doa/provisioner/puppet/puppet_module.rb:150-157 | The validator text of a listed tag answers what its validator answers, without changing the state |
| Resolver.SingleValidate | provision/vagrant/doa/provisioner/puppet/puppet_module.rb:150-159 | With one validator its answer is the verdict and the state is kept |
| Resolver.RunValidatorsOf | provision/vagrant/doa/provisioner/puppet/puppet_module.rb:150-159 | Over callbacks that answer without changing the state, the value is valid exactly when some callback answers true |
| Resolver.RunValidatorsAnswer | provision/vagrant/doa/provisioner/puppet/puppet_module.rb:135-159 | For an :expect list of listed tags, the value is valid exactly when one of their validators accepts it |
| Resolver.AbsentValue | provision/vagrant/doa/provisioner/puppet/puppet_module.rb:113-123 | An absent leaf starts from :doa_def when that exists and differs from :mod_def, and from nil otherwise |
| Resolver.AbsentLeaf | provision/vagrant/doa/provisioner/puppet/puppet_module.rb:113-123 | A parameter nobody provided is never checked; it is written with its :doa_def exactly when that default exists and differs from :mod_def |
| Resolver.AbsentOverridesModDef | provision/vagrant/doa/provisioner/puppet/puppet_module.rb:113-123 | An absent leaf whose :doa_def overrides its :mod_def is written with that default under its :maps_to key |
| Resolver.AbsentSameAsModDef | provision/vagrant/doa/provisioner/puppet/puppet_module.rb:177-178 | An absent leaf whose :doa_def is its :mod_def is left to the module: nothing is written and the state is kept |
| Resolver.ProvidedModDef | provision/vagrant/doa/provisioner/puppet/puppet_module.rb:125 | A provided value whose text is :mod_def is left to the module: nothing is written |
| Resolver.ExclusionAborts | provision/vagrant/doa/provisioner/puppet/puppet_module.rb:87-95 | A provided parameter whose exclusion check fails aborts the walk, whatever its kind |
| Resolver.ExclusionPasses | provision/vagrant/doa/provisioner/puppet/puppet_module.rb:89-94 | The exclusion check passes exactly when every excluded path is absent from the provided tree |
| Resolver.ExclusionFirstHit | provision/vagrant/doa/provisioner/puppet/puppet_module.rb:91 | The first excluded path that is present is the one reported in EXCLUSIVE_PARAMS |
| Resolver.AllowAborts | provision/vagrant/doa/provisioner/puppet/puppet_module.rb:127-132 | A value outside :allow aborts the walk before any validator runs |
| Resolver.AllowPasses | provision/vagrant/doa/provisioner/puppet/puppet_module.rb:127-132 | With an Array :allow, a value passes exactly when its text is listed and, for an array, every element outside the list is itself empty |
| Resolver.AllowScalar | provision/vagrant/doa/provisioner/puppet/puppet_module.rb:126-132 | With an :allow that is not an Array, a non-array value passes a String exactly when its text occurs in it and a Hash exactly when its text is a key; any other :allow raises NoMethodError at `include?`, and an array value raises TypeError at the subtraction |
| Resolver.EmptyCbValidateSkips | provision/vagrant/doa/provisioner/puppet/puppet_module.rb:134-159 | A :cb_validate is the only callback; when it is `empty?` (nil, '', [] or {}) no validation runs and the value stays valid, otherwise that callback decides |
| Resolver.AllowAbsent | provision/vagrant/doa/provisioner/puppet/puppet_module.rb:127 | Without an :allow list every value passes |
| Resolver.InvalidAborts | provision/vagrant/doa/provisioner/puppet/puppet_module.rb:150-175 | When no validator accepts the value the walk aborts with UNSUPPORTED_PARAM_VALUE, :cb_process or not |
| Resolver.ValidLeafEmits | provision/vagrant/doa/provisioner/puppet/puppet_module.rb:161-203 | An accepted value is written as given when it is a hash or an array and as its text otherwise, in the state the validators left |
| Resolver.AcceptedWritten | provision/vagrant/doa/provisioner/puppet/puppet_module.rb:125-203 | A provided scalar leaf without :allow or :exclude, accepted by its one validator and different from :mod_def, is written as its text under its :maps_to key |
| Resolver.RejectedAborts | provision/vagrant/doa/provisioner/puppet/puppet_module.rb:125-175 | A provided leaf that its one validator rejects aborts with the parameter's name |
| Resolver.ProcessSeesProvided | provision/vagrant/doa/provisioner/puppet/puppet_module.rb:164-170 | :cb_process receives the raw provided value, nil for an absent parameter, never the default; what it returns is what is written |
| Resolver.EmitWrites | provision/vagrant/doa/provisioner/puppet/puppet_module.rb:177-203 | A value other than nil and :mod_def is written under :maps_to or the schema key, flag hashes quoted first and wrapped in quotes when a wrapping validator is expected |
| Resolver.EmitKeepsOthers | provision/vagrant/doa/provisioner/puppet/puppet_module.rb:196 | Writing one key leaves every other key as it was |
| Resolver.EmitSkips | provision/vagrant/doa/provisioner/puppet/puppet_module.rb:177-178 | nil and :mod_def are never written |
| Resolver.MapsToKey | provision/vagrant/doa/provisioner/puppet/puppet_module.rb:195 | A present, non-blank :maps_to renames the key; otherwise the schema key is used |
| Resolver.MapsToNamed | provision/vagrant/doa/provisioner/puppet/puppet_module.rb:195-196 | A non-blank :maps_to text is the key written |
| Resolver.QuotedPairsKeys | provision/vagrant/doa/provisioner/puppet/puppet_module.rb:182-190 | The keys of a quoted flag hash are exactly the quoted texts of the given keys |
| Resolver.QuotedPairsLast | provision/vagrant/doa/provisioner/puppet/puppet_module.rb:182-190 | A quoted key holds the flag text of the last pair written under it |
| Resolver.FlagTexts | provision/vagrant/doa/provisioner/puppet/puppet_module.rb:184-189 | Booleans and 'on'/'off' become the quoted words; anything else its quoted text |
| Resolver.EmitUnique | provision/vagrant/doa/provisioner/puppet/puppet_module.rb:193-201 | Writing one key keeps the queue a hash with one entry per key |
| Resolver.EntryAtUnique | provision/vagrant/doa/provisioner/puppet/puppet_module.rb:79-207 | One schema entry keeps the queue a hash with one entry per key |
| Resolver.SetParamsUnique | provision/vagrant/doa/provisioner/puppet/puppet_module.rb:79-207 | The queue set_params returns is a hash: one entry per key |
| Resolver.SetParamsExtends | provision/vagrant/doa/provisioner/puppet/puppet_module.rb:79-207 | The walk only ever adds calls after those made before it |
| Resolver.ChildrenMerged | provision/vagrant/doa/provisioner/puppet/puppet_module.rb:97-100 | A :children entry writes no key of its own; its children's parameters are deep-merged into the queue of its own level |
| Resolver.ChildrenHashAbsent | provision/vagrant/doa/provisioner/puppet/puppet_module.rb:102-110 | An absent :children_hash parameter writes nothing and keeps the state |
| Resolver.ChildrenHashRejects | provision/vagrant/doa/provisioner/puppet/puppet_module.rb:103-104 | A provided :children_hash value that is not a non-empty hash aborts the walk |
| Resolver.ChildrenHashEmits | provision/vagrant/doa/provisioner/puppet/puppet_module.rb:105-110 | A provided hash of instances is written, as one hash of nested queues, under the entry's key |
| Resolver.ChildrenHashWritten | provision/vagrant/doa/provisioner/puppet/puppet_module.rb:99-109 | A provided hash of instances is written whole under the :maps_to key |
| Resolver.InstancesKeyed | provision/vagrant/doa/provisioner/puppet/puppet_module.rb:107 | Each provided instance gets a nested queue under its quoted name, and nothing else is written |
| Resolver.InstancesHashes | provision/vagrant/doa/provisioner/puppet/puppet_module.rb:107 | What an instance key holds is a nested queue, a hash |
| Resolver.PreparedCalls | provision/vagrant/doa/provisioner/puppet/puppet_module.rb:215-217 | Before the schema is walked, the librarian modules are enqueued first, then the Hiera classes, and the provided tree is the settings hash |
| Resolver.SetupOrder | provision/vagrant/doa/provisioner/puppet/puppet_module.rb:215-221 | A setup that goes through has prepared first and only adds calls after the prepared ones; a class without custom_setup ends in the resolution of the prepared state |
| Resolver.CustomSetupExtends | provision/vagrant/doa/provisioner/puppet/puppet_module.rb:220 | custom_setup only adds calls and keeps the provided tree |
| Resolver.ResolveExtends | provision/vagrant/doa/provisioner/puppet/puppet_module.rb:218 | The resolved parameters are enqueued last, after every call the schema's callbacks made; a class without schema changes nothing |
| Resolver.SetParamsIn | provision/vagrant/doa/provisioner/puppet/puppet_module.rb:79-207 | The loop over the schema entries on the module's state returns the queue set_params computes and leaves the state it leaves |
| Resolver.ResolveIn | provision/vagrant/doa/provisioner/puppet/puppet_module.rb:218 | Resolving on the module's state succeeds exactly when the resolution does, and leaves its state |
| Resolver.SetupIn | provision/vagrant/doa/provisioner/puppet/puppet_module.rb:215-221 | setup(settings) on the module's state succeeds exactly when the setup does, and leaves its state |
| Mariadb.NodeChildren | provision/vagrant/doa/provisioner/puppet/mariadb.rb:17-20 | Exactly 'server' and 'cluster' are group parents with nodes |
| Mariadb.DotXBranch | provision/vagrant/doa/provisioner/puppet/mariadb.rb:281-297 | A '.x' branch maps only onto 5.5, 10.0 or 10.1; it aborts with MARIADB_NO_SUPPORT otherwise, and a symbol raises at gsub |
| Mariadb.DotXBranchTable | provision/vagrant/doa/provisioner/puppet/mariadb.rb:282-288 | '10.x' maps to 10.0, '5.x' to 5.5 and '10.1.x' to 10.1 |
| Mariadb.UnsupportedBranchAborts | provision/vagrant/doa/provisioner/puppet/mariadb.rb:287-297 | Any other branch, such as '10.2.X', has no MariaDB support and aborts |
| Mariadb.MainClass | provision/vagrant/doa/provisioner/puppet/mariadb.rb:331-335 | The main class is 'server' or 'cluster', the one the parent path starts with, and none for any other parent |
| Mariadb.RequestedBranch | provision/vagrant/doa/provisioner/puppet/mariadb.rb:279-318 | Settling the requested branch neither touches the recorded branches nor enqueues anything |
| Mariadb.AllowedBranchKept | provision/vagrant/doa/provisioner/puppet/mariadb.rb:316-317 | An allowed branch given as such becomes the branch |
| Mariadb.SpecificVersionBranch | provision/vagrant/doa/provisioner/puppet/mariadb.rb:299-309 | A specific version RGX_SEMVER matches sets the branch to its MAJOR.MINOR and the version to itself, and settles 'ensure' |
| Mariadb.UncapturedVersionRaises | provision/vagrant/doa/provisioner/puppet/mariadb.rb:299-301 | A semantic version RGX_SEMVER does not match raises on the failed match before 'ensure' is looked at |
| Mariadb.LatestWithVersionAborts | provision/vagrant/doa/provisioner/puppet/mariadb.rb:310-313 | An 'ensure' of 'latest' next to a specific version aborts with VERSION_INCOMP |
| Mariadb.EnsurePresentWhenAbsent | provision/vagrant/doa/provisioner/puppet/mariadb.rb:304-309 | A group without 'ensure' gets 'present' next to a specific version, and nothing else changes |
| Mariadb.BranchDefaultsTo100 | provision/vagrant/doa/provisioner/puppet/mariadb.rb:319-323 | With no version, no branch and no earlier branch, the branch falls back to 10.0 and is recorded |
| Mariadb.BranchCarriesOver | provision/vagrant/doa/provisioner/puppet/mariadb.rb:319-324 | An earlier call's branch carries over when the value names none |
| Mariadb.DifferentBranchAborts | provision/vagrant/doa/provisioner/puppet/mariadb.rb:324-327 | A branch that differs from the one recorded first aborts with BRANCH_INCOMP |
| Mariadb.FirstBranchRecorded | provision/vagrant/doa/provisioner/puppet/mariadb.rb:322-338 | The first branch is recorded and the repository branch of the main class is enqueued, quoted |
| Mariadb.CopyToChildrenSets | provision/vagrant/doa/provisioner/puppet/mariadb.rb:270-276 | For a group, every node that was missing or a hash ends up a hash holding the value under the parameter, and every other key of the group is as it was |
| Mariadb.CopyToChildSets | provision/vagrant/doa/provisioner/puppet/mariadb.rb:272-274 | One node: a missing or hash node becomes a hash holding the value under the parameter; a String node has the first occurrence of the parameter's name replaced by the value (`String#[]=`); no other key changes |
| Mariadb.CopyToChildCases | provision/vagrant/doa/provisioner/puppet/mariadb.rb:272-274 | The nodes are not type-checked. A missing or hash node takes the key. A String node raises IndexError unless the parameter's name occurs in it; otherwise it succeeds exactly when the value is a String, and raises TypeError when it is not. An Array node raises TypeError, and any other value raises NoMethodError |
| Mariadb.StringNodeExamples | provision/vagrant/doa/provisioner/puppet/mariadb.rb:270-275 | With server nodes client and server, a client 'x' raises IndexError for 'version'; a client 'version' becomes '10.1.x' while the missing server node becomes `{'version' => '10.1.x'}` |
| Mariadb.CopyThenDrop | provision/vagrant/doa/provisioner/puppet/mariadb.rb:270-276 | After copying into the nodes and dropping the parameter from the group, every node that was missing or a hash holds the value and the group does not |
| Mariadb.GroupValueCopiedToNodes | provision/vagrant/doa/provisioner/puppet/mariadb.rb:269-348 | A group parent hands a value for a parameter other than 'version' to every node (each node that was missing or a hash then holds it), drops it from the group and returns nil |
| Mariadb.ProcessParam | provision/vagrant/doa/provisioner/puppet/mariadb.rb:269-348 | A group parent returns nil, any other parent the value itself; a parameter other than 'version' enqueues nothing |
| Mariadb.ProcessParamIn | provision/vagrant/doa/provisioner/puppet/mariadb.rb:269-348 | process_param on the class state returns what the model returns and leaves its state |
| Mariadb.IncludeHieraclass | provision/vagrant/doa/provisioner/puppet/mariadb.rb:350-353 | The callback enqueues the node's class mariadb::<node>, returns nil and changes nothing else |
| Mariadb.CustomSetup | provision/vagrant/doa/provisioner/puppet/mariadb.rb:252-267 | Below 1024 MB of guest memory the swap-file module, its ordering before the given main class and its site content are enqueued, in that order; otherwise nothing |
| Mariadb.ServerAndClusterExclusive | provision/vagrant/doa/provisioner/puppet/mariadb.rb:47-135 | 'server' and 'cluster' exclude each other in the schema |
| Nginx.GroupsHaveNoDefault | provision/vagrant/doa/provisioner/puppet/nginx.rb:352-362 | 'package' is a group: it carries no default of its own |
| Nginx.PackageEnsureFacts | provision/vagrant/doa/provisioner/puppet/nginx.rb:352-362 | The package ensure is a leaf whose DOA default is 'present' in prod and 'latest' in dev and test, and whose module default is 'present' |
| Nginx.PackageEnsureLatest | provision/vagrant/doa/provisioner/puppet/nginx.rb:352-362 | In dev and test an absent package.ensure is written as quoted 'latest' under nginx::package_ensure, the state kept |
| Nginx.PackageEnsureProdSilent | provision/vagrant/doa/provisioner/puppet/nginx.rb:352-362 | In prod the default is the module's own 'present', and nothing is written |
| Nginx.EnsureCall | provision/vagrant/doa/provisioner/puppet/nginx.rb:1442-1447 | The ensure step either leaves the calls as they were or appends exactly one Hiera call of one parameter for the label |
| Nginx.EnsureAlreadySet | provision/vagrant/doa/provisioner/puppet/nginx.rb:1442 | An ensure already in sw_stack[label] is not enqueued again |
| Nginx.EnsureEnqueued | provision/vagrant/doa/provisioner/puppet/nginx.rb:1442-1446 | A missing ensure is enqueued with the environment's DOA default, quoted, under its :maps_to key |
| Nginx.EnsureWithoutDefaultRaises | provision/vagrant/doa/provisioner/puppet/nginx.rb:1444 | A missing ensure whose child has no :doa_def makes the lookup raise NoMethodError |
| Nginx.EntryDefault | provision/vagrant/doa/provisioner/puppet/nginx.rb:1449-1451 | A default is only read from an entry that is itself a hash in the schema |
| Nginx.PackageDefaultNil | provision/vagrant/doa/provisioner/puppet/nginx.rb:1449-1451 | 'package' is a group without defaults, so set_hiera_param returns nil for it |
| Nginx.PackageEnsureByEnvironment | provision/vagrant/doa/provisioner/puppet/nginx.rb:1439-1452 | With no table for the label, the package ensure is enqueued as the environment's quoted default (an empty quoted text for an unlisted environment) and nil comes back |
| Nginx.ServiceEnsureRaises | provision/vagrant/doa/provisioner/puppet/nginx.rb:1444 | The service ensure has no :doa_def, so a missing service ensure makes the lookup raise |
| Nginx.MemberOf | provision/vagrant/doa/provisioner/puppet/nginx.rb:1458-1465 | The PHP-FPM upstream member is the socket as given when `valid_ipv4_port?` accepts it, else 'unix:' and the socket when it is an absolute path, else 127.0.0.1:9000 (always so for no socket); an error of either validator is passed on |
| Nginx.PlacementOf | provision/vagrant/doa/provisioner/puppet/nginx.rb:1472-1476 | The root is the install directory, DEF_INSTALL_DIR when empty; the subdirectory is the setting, or the project's own name when the setting is a yes-word ('true', 'on', 'yes', '1'); a project sits at the top exactly when that subdirectory is empty |
| Nginx.PlaceOf | provision/vagrant/doa/provisioner/puppet/nginx.rb:1469-1476 | With the undefined constants supplied and the calls as written, no project is ever placed: a WordPress project raises ArgumentError and every other one is skipped |
| Nginx.PlaceOfWordPress | provision/vagrant/doa/provisioner/puppet/nginx.rb:1469-1470 | With the corrected lookups a project is placed exactly when its stack holds WordPress |
| Nginx.GroupProjects | provision/vagrant/doa/provisioner/puppet/nginx.rb:1466-1486 | The loop over the projects computes the grouping of their placements |
| Nginx.PlaceExisting | provision/vagrant/doa/provisioner/puppet/nginx.rb:1477-1485 | A placement that joins the group of its root keeps every group holding exactly its root's projects |
| Nginx.PlaceNew | provision/vagrant/doa/provisioner/puppet/nginx.rb:1477-1485 | A placement under a new root opens its own group and keeps every group holding exactly its root's projects |
| Nginx.GroupAllGroups | provision/vagrant/doa/provisioner/puppet/nginx.rb:1477-1485 | The roots of wp_projects are distinct and are the roots some project uses; :top is set exactly when a project sits at the top, :subdir lists the other projects' subdirectories in order |
| Nginx.WordPressRaisesAsWritten | provision/vagrant/doa/provisioner/puppet/nginx.rb:1471-1473 | With the undefined constants supplied, the first project whose stack holds WordPress makes the three-argument lookup raise ArgumentError |
| Nginx.AsWrittenNothingEnqueued | provision/vagrant/doa/provisioner/puppet/nginx.rb:1454-1625 | As written, a setup that does not raise enqueues nothing and adds no alias |
| Nginx.WordPressProjectsGrouped | provision/vagrant/doa/provisioner/puppet/nginx.rb:1466-1486 | With the lookups reading the project's stack, every WordPress project and no other is placed, and wp_projects groups exactly the placed projects by root |
| Nginx.NoWordPressNothing | provision/vagrant/doa/provisioner/puppet/nginx.rb:1466-1488 | Without a WordPress project the grouping is empty and the setup enqueues nothing |
| Nginx.ProjectLevelUnchanged | provision/vagrant/doa/provisioner/puppet/nginx.rb:1455 | Inside a project the setup changes nothing |
| Nginx.EmittedShared | provision/vagrant/doa/provisioner/puppet/nginx.rb:1488-1540 | With a WordPress root, the two server aliases are added and the upstream and phpMyAdmin enqueued first, then one call per root |
| Nginx.EmittedOnePerRoot | provision/vagrant/doa/provisioner/puppet/nginx.rb:1542-1622 | Then comes one call per root, in the order of wp_projects; every root is a string |
| Nginx.NonStringRootRaises | provision/vagrant/doa/provisioner/puppet/nginx.rb:1544 | A root whose directory is not a string stops the setup with NoMethodError at gsub |
| Nginx.LocationsPresent | provision/vagrant/doa/provisioner/puppet/nginx.rb:1558-1620 | The static location is always set, the subdirectory one exactly when there are subdirectories, the top one exactly with :top |
| Nginx.SubdirPatternFlattens | provision/vagrant/doa/provisioner/puppet/nginx.rb:1586 | The subdirectory pattern joins with `Array#join('\|')`, which flattens a subdirectory given as an array: `[['a','b']]` gives `~ ^/(a\|b)` and `['blog','shop']` gives `~ ^/(blog\|shop)` |
| Nginx.EscRootChars | provision/vagrant/doa/provisioner/puppet/nginx.rb:1544 | Escaping keeps the length, turns every '/' into '_' and keeps every other character |
| Nginx.EscRootCollides | provision/vagrant/doa/provisioner/puppet/nginx.rb:1544 | Two different roots can share a location name: an underscore and a slash escape alike |
| Nginx.EnqueueRoots | provision/vagrant/doa/provisioner/puppet/nginx.rb:1542-1622 | The loop makes one call per root, in order, and the first raise stops it; the aliases are untouched |
| Nginx.EmitIn | provision/vagrant/doa/provisioner/puppet/nginx.rb:1488-1623 | On the machine, the aliases and calls end as the emission computes, and the setup fails exactly when it does |
| Nginx.CustomSetupIn | provision/vagrant/doa/provisioner/puppet/nginx.rb:1454-1625 | custom_setup on the machine fails exactly when the model does and otherwise leaves its aliases and calls |
| Nginx.CustomSetupAppends | provision/vagrant/doa/provisioner/puppet/nginx.rb:1454-1625 | custom_setup only appends to the guest's aliases and to the queue |
| Nginx.SetupOrder | provision/vagrant/doa/provisioner/puppet/puppet_module.rb:214-220 | The Nginx setup resolves its schema first; custom_setup then only appends to that queue and keeps the provided tree, and inside a project adds nothing |
| Nodejs.DirExpectNormalised | provision/vagrant/doa/provisioner/puppet/nodejs.rb:28-31 | The single :expect symbol of 'dir' is used as a one-element list: its one validator is valid_unix_abspath? |
| Nodejs.NvmUserAbsent | provision/vagrant/doa/provisioner/puppet/nodejs.rb:63-67 | An absent nvm.user, with only a :doa_def, is written quoted under nodestack::nvm_user as the guest's user |
| Nodejs.RefetchFalseNotWritten | provision/vagrant/doa/provisioner/puppet/nodejs.rb:50-54 | A refetch of 'false' or false is the module's own default and is not written |
| Nodejs.LeadingVRejected | provision/vagrant/doa/provisioner/puppet/nodejs.rb:71-75 | A leading 'v' is no part of a semantic version |
| Nodejs.VersionWithLeadingV | provision/vagrant/doa/provisioner/puppet/nodejs.rb:71-75 | nvm.version takes MAJOR.MINOR.PATCH only, so 'v0.29.0' aborts the walk with UNSUPPORTED_PARAM_VALUE |
| Nodejs.VersionWritten | provision/vagrant/doa/provisioner/puppet/nodejs.rb:71-75 | An accepted version other than 0.29.0 is written quoted under nodestack::nvm_version |
| Nodejs.VersionsByQuotedName | provision/vagrant/doa/provisioner/puppet/nodejs.rb:103-122 | A provided hash of versions is written under nodestack::versions as one hash whose keys are exactly the quoted version names |
| Nodejs.VersionsHashWritten | provision/vagrant/doa/provisioner/puppet/nodejs.rb:103-122 | The instances' queue is written as one hash under nodestack::versions |
| Nodejs.SourceAsFromSource | provision/vagrant/doa/provisioner/puppet/nodejs.rb:113-117 | Inside a version, a true 'source' is written as 'true' under from_source |
| Nodejs.PackagesAbsent | provision/vagrant/doa/provisioner/puppet/nodejs.rb:123-124 | 'packages' has no options: absent, it writes nothing |
| Nodejs.PackagesPassThrough | provision/vagrant/doa/provisioner/puppet/nodejs.rb:123-124 | A provided 'packages' passes unvalidated and unquoted under its own name |
| Wordpress.SetupInputWraps | provision/vagrant/doa/provisioner/puppet/wordpress.rb:261-264 | A settings hash is placed under 'instances' and the current project, or 'base', and is the only thing there; anything else gives an empty hash |
| Wordpress.InstallDirOf | provision/vagrant/doa/provisioner/puppet/wordpress.rb:311-317 | Without a subdirectory the directory is the value, DEF_INSTALL_DIR when empty; with one, it is exactly that directory, '/' and the subdirectory, or the project name when the subdirectory is a yes-word |
| Wordpress.InstallDirGivenValue | provision/vagrant/doa/provisioner/puppet/wordpress.rb:311-317 | A given value is used as it is; the lookups only supply the subdirectory |
| Wordpress.FirstBadFlag | provision/vagrant/doa/provisioner/puppet/wordpress.rb:363-369 | The flag found is the first of install, activate and delete that is present and not a boolean; none is found exactly when every present one is |
| Wordpress.AssetEntryChecks | provision/vagrant/doa/provisioner/puppet/wordpress.rb:363-378 | An asset is refused exactly when its settings are not a hash (NoMethodError at `has_key?`) or one of its flags is not a boolean (NoMethodError at `colorize`, because line 366 colours the Array of message arguments, so the unsupported-value message is never printed); otherwise its entry is the table |
| Wordpress.AssetTableFlags | provision/vagrant/doa/provisioner/puppet/wordpress.rb:372-378 | install and activate default to 'true' |
| Wordpress.AssetTableDelete | provision/vagrant/doa/provisioner/puppet/wordpress.rb:372-378 | delete appears exactly when the asset gives it |
| Wordpress.AssetTableVersion | provision/vagrant/doa/provisioner/puppet/wordpress.rb:372-378 | version is always there, as a quoted text |
| Wordpress.FillFirstError | provision/vagrant/doa/provisioner/puppet/wordpress.rb:360-380 | An asset that fails its checks makes the whole table fail |
| Wordpress.AssetsTableKeys | provision/vagrant/doa/provisioner/puppet/wordpress.rb:360-380 | The table has an entry for each slug and none for anything else; the last asset's slug holds that asset's entries |
| Wordpress.FillAssets | provision/vagrant/doa/provisioner/puppet/wordpress.rb:360-380 | The loop over the assets fills the table `Wordpress.AssetsTable` defines, and the first asset that fails its checks aborts |
| Wordpress.SetupAssets | provision/vagrant/doa/provisioner/puppet/wordpress.rb:350-404 | The callback returns nil and keeps the provided tree; anything but a non-empty hash of assets changes nothing; a hash that passes the checks raises NameError for the undefined DOA::Sync::DEFAULT_EXCLUDES when an asset names an exclusion, and only then |
| Wordpress.SetupAssetsExcludeRaises | provision/vagrant/doa/provisioner/puppet/wordpress.rb:385-397 | An asset whose 'exclude' is a non-empty array or a non-blank string makes the second pass raise NameError, once the checks of the first pass have passed |
| Wordpress.SecondPassRaises | provision/vagrant/doa/provisioner/puppet/wordpress.rb:388-396 | The loop over the assets of one sync object raises exactly when some asset names an exclusion |
| Wordpress.FillErrFrom | provision/vagrant/doa/provisioner/puppet/wordpress.rb:360-380 | A failed table fails with the error of one of the assets it went through |
| Wordpress.AssetsTableErr | provision/vagrant/doa/provisioner/puppet/wordpress.rb:360-380 | The first pass fails only with the error of one asset's checks: NoMethodError at `has_key?` for settings that are not a hash, or at `colorize` for a flag that is not a boolean |
| Wordpress.SetupAssetsEnqueues | provision/vagrant/doa/provisioner/puppet/wordpress.rb:382-403 | A hash of assets that passes the checks and names no exclusion enqueues wordpress::wpcli, then the table, which holds every slug and nothing else |
| Wordpress.NonEmptyAssetsCalls | provision/vagrant/doa/provisioner/puppet/wordpress.rb:382-403 | A non-empty table is enqueued after the class |
| Wordpress.SetupAssetsRejectsFlag | provision/vagrant/doa/provisioner/puppet/wordpress.rb:363-369 | An asset whose settings are not a hash, or whose install, activate or delete is present but not a boolean, aborts the whole call |
| Wordpress.SetupAssetsIn | provision/vagrant/doa/provisioner/puppet/wordpress.rb:350-404 | setup_assets on the module's state returns nil when the model does and leaves its state; when the second pass raises NameError, wordpress::wpcli has already been enqueued and nothing else has changed |
| Wordpress.Presync.AddExcludes | provision/vagrant/doa/provisioner/puppet/wordpress.rb:338-348 | The patterns are appended to the directory of the escaped source path, which is created with the escaped target path when it is new; no other directory changes |
| Wordpress.AddExcludesTwice | provision/vagrant/doa/provisioner/puppet/wordpress.rb:338-348 | Two calls for the same new source path keep the first target and both lists of patterns, in order |
| WordpressSchema.SwitchShape | provision/vagrant/doa/provisioner/puppet/wordpress.rb:87-127 | A debug switch is a leaf whose DOA default is its environment's text and whose module default is 'false' |
| WordpressSchema.SwitchWriting | provision/vagrant/doa/provisioner/puppet/wordpress.rb:87-127 | A debug switch is written unquoted under its wp-config target |
| WordpressSchema.DisplayAbsentShown | provision/vagrant/doa/provisioner/puppet/wordpress.rb:116-125 | In dev and test an absent debug.display is written as 'true' |
| WordpressSchema.DisplayAbsentProdSilent | provision/vagrant/doa/provisioner/puppet/wordpress.rb:116-125 | In prod the DOA default of debug.display is the module's own 'false', and nothing is written |
| WordpressSchema.EnableAbsentEverywhere | provision/vagrant/doa/provisioner/puppet/wordpress.rb:91-100 | An absent debug.enable is written as 'true' in every environment, prod included |
| Php.VersionEnsure | provision/vagrant/doa/provisioner/puppet/php.rb:110-118 | A version that goes through is stored as a text |
| Php.SupportedKeys | provision/vagrant/doa/provisioner/puppet/php.rb:10-19 | The keys of SUPPORTED are distinct and none of them is 'ensure' or 'manage_repos' |
| Php.UnknownKeyAborts | provision/vagrant/doa/provisioner/puppet/php.rb:28-38 | A provided key outside SUPPORTED aborts with that key, the first one in order |
| Php.ReposNeverManaged | provision/vagrant/doa/provisioner/puppet/php.rb:122 | Whatever was provided, the repositories are not managed, and the forge module and its class are enqueued |
| Php.OwnRoundDecides | provision/vagrant/doa/provisioner/puppet/php.rb:99-121 | The table entry for a setting is decided by its own round alone |
| Php.AbsentStoresDefault | provision/vagrant/doa/provisioner/puppet/php.rb:100-106 | A setting nobody provided stores its default |
| Php.ProvidedOtherKept | provision/vagrant/doa/provisioner/puppet/php.rb:107-121 | A provided setting other than the version leaves the table as it was |
| Php.ProvidedVersionEnsure | provision/vagrant/doa/provisioner/puppet/php.rb:108-113 | An accepted version is the quoted 'ensure' |
| Php.ProvidedVersionRejected | provision/vagrant/doa/provisioner/puppet/php.rb:114-117 | A provided text that is neither semantic nor a keyword aborts with UNRECOGNIZED_VERSION |
| Php.VersionWildcardRejected | provision/vagrant/doa/provisioner/puppet/php.rb:108-117 | '5.x' is no version PHP accepts |
| Php.SetupIn | provision/vagrant/doa/provisioner/puppet/php.rb:28-122 | The setup on the table fails exactly when the model does and otherwise leaves its table and calls |
| CouchDb.SupportedKeys | provision/vagrant/doa/provisioner/puppet/couchdb.rb:10-14 | The keys of SUPPORTED are distinct |
| CouchDb.UnknownKeyAborts | provision/vagrant/doa/provisioner/puppet/couchdb.rb:17-27 | A provided key outside SUPPORTED aborts with that key, the first one in order |
| CouchDb.RepoOnlyOnDebian | provision/vagrant/doa/provisioner/puppet/couchdb.rb:32-44 | The calls made before are kept, the forge module and class follow, and the Apache repository is added exactly on Debian |
| CouchDb.OwnRoundDecides | provision/vagrant/doa/provisioner/puppet/couchdb.rb:47-60 | The table entry for a setting is decided by its own round alone |
| CouchDb.AbsentStoresDefault | provision/vagrant/doa/provisioner/puppet/couchdb.rb:48-49 | A setting nobody provided stores its default |
| CouchDb.BindAddressChecked | provision/vagrant/doa/provisioner/puppet/couchdb.rb:52-53 | A provided address is stored exactly when it is a dotted quad of bytes |
| CouchDb.BindAddressNotText | provision/vagrant/doa/provisioner/puppet/couchdb.rb:53 | An address that is neither text nor nil makes the pattern match raise a TypeError |
| CouchDb.PortChecked | provision/vagrant/doa/provisioner/puppet/couchdb.rb:54-55 | A provided port is stored exactly when it is a port number |
| CouchDb.BackupdirAbortsAsWritten | provision/vagrant/doa/provisioner/puppet/couchdb.rb:56-57 | As written, once the first two rounds go through, a provided backup directory raises NoMethodError |
| CouchDb.BackupdirStoredWhenAbsolute | provision/vagrant/doa/provisioner/puppet/couchdb.rb:56-57 | As meant, a provided backup directory is stored exactly when it is an absolute Unix path |
| CouchDb.SetupIn | provision/vagrant/doa/provisioner/puppet/couchdb.rb:17-60 | The setup on the table fails exactly when the model does and otherwise leaves its table and calls |
| Meteor.WriteOf | provision/vagrant/doa/provisioner/puppet/meteor.rb:33-40 | A round stores a default under the setting's own key, and only the default |
| Meteor.PassesExactly | provision/vagrant/doa/provisioner/puppet/meteor.rb:15-23 | Only nil settings, an empty hash or an empty array get through the check |
| Meteor.FirstKeyAborts | provision/vagrant/doa/provisioner/puppet/meteor.rb:15-23 | The first provided key aborts, whatever it is |
| Meteor.TableUntouched | provision/vagrant/doa/provisioner/puppet/meteor.rb:28-40 | A setup that goes through adds the module's class and leaves the table alone |
| Meteor.SetupIn | provision/vagrant/doa/provisioner/puppet/meteor.rb:15-40 | The setup on the table fails exactly when the model does and otherwise leaves its table and calls |
| Whitelist.Params | provision/vagrant/doa/provisioner/puppet/meteor.rb:15-23 | nil yields no params, a hash its keys, an array its elements' first items; any other value raises |
| Whitelist.FirstUnsupported | provision/vagrant/doa/provisioner/puppet/meteor.rb:15-23 | The index found is the first param not in SUPPORTED; none is found exactly when every param is supported |
| Whitelist.CheckParams | provision/vagrant/doa/provisioner/puppet/meteor.rb:15-23 | The loop over the params answers what the check defines: the first unknown key aborts |
| Whitelist.HashPassesExactly | provision/vagrant/doa/provisioner/puppet/meteor.rb:15-23 | A settings hash passes exactly when each of its keys is supported |
| Whitelist.FirstUnknownKeyAborts | provision/vagrant/doa/provisioner/puppet/meteor.rb:15-23 | The key that aborts is the first unsupported one, in the order of the settings |
| Whitelist.AbsentIn | provision/vagrant/doa/provisioner/puppet/meteor.rb:34 | A parameter is absent when the settings are nil or its value is nil; settings that are neither nil nor a hash raise |
| Whitelist.LastStore | provision/vagrant/doa/provisioner/puppet/php.rb:99-121 | The last write to a key is one of the writes; there is none exactly when no write stores to it |
| Whitelist.FoldGet | provision/vagrant/doa/provisioner/puppet/php.rb:99-121 | After the rounds a key holds what its last write stored, or what it held before when nothing was written to it |
| Whitelist.OnlyRoundWrites | provision/vagrant/doa/provisioner/puppet/php.rb:99-121 | A key that only one round may write holds what that round stored, or what it held before |
| Whitelist.ApplyRounds | provision/vagrant/doa/provisioner/puppet/php.rb:99-121 | The rounds are applied in order; the first abort stops them, and otherwise the table is the fold of the writes; the calls are untouched |
| Host.MemoryRead | provision/vagrant/doa/host.rb:105-119 | A memory that is read is an Integer setting or the value of a string of digits, and every such setting is read; a Symbol of digits matches the pattern of line 113 and then raises NoMethodError at `to_i` |
| Host.TallyOf | provision/vagrant/doa/host.rb:105-119 | No more machines are counted as preassigned than were read |
| Host.TallyStep | provision/vagrant/doa/host.rb:105-119 | One more memory read is counted in, or left out, as the loop's test says |
| Host.ErrorStops | provision/vagrant/doa/host.rb:105-119 | A machine whose memory cannot be read stops the computation with that error |
| Host.TallyMachines | provision/vagrant/doa/host.rb:105-119 | The loop over the machines counts the preassigned ones and sums their memory as the tally defines |
| Host.DefaultCores | provision/vagrant/doa/host.rb:129-133 | The default is 1 core for 1 or 2 cores, and the ceiling of three quarters of the cores otherwise |
| Host.GuestDefaultsOf | provision/vagrant/doa/host.rb:96-134 | A guest never gets more than a quarter of the total memory, and it gets that quarter or at least MIN_MACHINE_MEM |
| Host.AllPreassigned | provision/vagrant/doa/host.rb:120-126 | When every machine is preassigned the candidate is MIN_MACHINE_MEM, capped at a quarter of the total |
| Host.SharedAmongOthers | provision/vagrant/doa/host.rb:120-126 | Otherwise the free memory less a quarter of the total and the preassigned memory is shared out among the other machines by floor division, at least 512 MB each, capped at a quarter of the total |
| Host.CalcGuestDefaults | provision/vagrant/doa/host.rb:96-134 | The method computes the guest defaults `Host.GuestDefaultsOf` defines, or its error |
| Host.GetOs | provision/vagrant/doa/host.rb:327-341 | A cached OS is returned as it is; otherwise Windows, then Mac, then Linux are tested in that order, each answer exactly when its test holds and no earlier one did |
| Host.UnixUnreachable | provision/vagrant/doa/host.rb:327-341 | Without a cached value 'Unix' is never the answer: every host that is neither Windows nor Mac is Linux |
| Ssh.RemoveColons | provision/vagrant/doa/ssh.rb:23 | gsub(':', '') removes every colon, never lengthens the text and leaves a text without colons as it is |
| Ssh.Escape | provision/vagrant/doa/ssh.rb:22-26 | A Windows path gets a leading '/' and loses its colons; with trailing_backslash the result ends in '/', added only when missing; any other path is kept |
| Ssh.EscapeTrailingIdempotent | provision/vagrant/doa/ssh.rb:22-26 | Escaping twice with trailing_backslash on a non-Windows system changes nothing more |
| Ssh.KeyQuote | provision/vagrant/doa/ssh.rb:29 | The key is single-quoted exactly when the source system is Windows |
| Ssh.Separator | provision/vagrant/doa/ssh.rb:30 | The remote commands are joined with ' & ' exactly for a Windows target, ' ; ' otherwise |
| Ssh.WindowsTargetJoin | provision/vagrant/doa/ssh.rb:30-31 | Two remote commands for a Windows target are joined with ' & ' |
| Ssh.OtherTargetJoin | provision/vagrant/doa/ssh.rb:30-31 | Two remote commands for any other target are joined with ' ; ' |
| Ssh.SshCommand | provision/vagrant/doa/ssh.rb:28-31 | The ssh line is the login, OPT_SSH and the quoted key, then the target address, then the joined commands between the command quotes |
| Ssh.SshCaptureCommand | provision/vagrant/doa/ssh.rb:40-43 | ssh_capture runs the same line as ssh, with the commands between double quotes |
| Ssh.ScpCommand | provision/vagrant/doa/ssh.rb:51-53 | The scp line is exactly OPT_SCP and the quoted key followed by the source path escaped for the source system and the address and target path for the target |
| Ssh.Checked | provision/vagrant/doa/ssh.rb:32-37 | A zero exit status comes back with the output; any other status fails with FAIL_ERROR |
| Sync.HostSshUser | provision/vagrant/doa/sync.rb:25-36 | The ssh user for a Windows host is the domain-qualified name between escaped double quotes; for any other host it is the user name |
| Sync.Replacement | provision/vagrant/doa/sync.rb:62-67 | The replacement inserts a backslash and the metacharacter, except that '+' yields nothing because the pattern captures no group |
| Sync.IgnoreChunk | provision/vagrant/doa/sync.rb:61-67 | In an ignore pattern '*' becomes a backslash-dot-star, '+' disappears, every other metacharacter is escaped and every other character is kept |
| Sync.IgnoreAsWritten | provision/vagrant/doa/sync.rb:61-67 | On a path without backslashes the loop over REGEX_META and the wildcard substitution give the pattern built one character at a time |
| Sync.EscapeIgnore | provision/vagrant/doa/sync.rb:61-67 | The loop over REGEX_META followed by the wildcard substitution computes the ignore pattern of the path |
| Sync.GlobChunk | provision/vagrant/doa/sync.rb:61-67 | An intended glob character becomes the wildcard '.*', an escaped metacharacter, or itself |
| Sync.GlobRoundTrip | provision/vagrant/doa/sync.rb:61-67 | The intended pattern reads back as the glob it came from |
| Sync.StarAsWritten | provision/vagrant/doa/sync.rb:61-67 | As written, the glob '*' turns into a pattern that reads back as a run of dots |
| Sync.PlusAsWritten | provision/vagrant/doa/sync.rb:61-67 | As written, a '+' of the path is dropped from its ignore pattern |
| Sync.DedupFacts | provision/vagrant/doa/sync.rb:56-73 | Removing duplicates keeps no element twice, loses and adds none, and keeps the first one first |
| Sync.UnionFacts | provision/vagrant/doa/sync.rb:56-73 | The union of two lists holds no element twice and exactly the elements of either, the first list's first element first |
| Sync.SyncModeCases | provision/vagrant/doa/sync.rb:42-45 | Only a hash has a mode; a missing, empty or non-string mode is 'brsync' |
| Sync.TargetPathShape | provision/vagrant/doa/sync.rb:46-47 | The target lies in the site's wp-content directory and ends with the asset's name |
| Sync.AssetStepCases | provision/vagrant/doa/sync.rb:42-60 | An asset registers at most one watched path, and none unless its mode is brsync and it has a path |
| Sync.TypeStepCases | provision/vagrant/doa/sync.rb:39-41 | A setup that is not a hash aborts; a type it does not list adds nothing |
| Sync.RootShape | provision/vagrant/doa/sync.rb:82-92 | The project's own root wins; otherwise the project's directory under the machine's root or '/var/www' |
| Sync.StackSteps | provision/vagrant/doa/sync.rb:93-98 | Only the 'wordpress' entries of a stack are listened to |
| Sync.ProjectSiteCases | provision/vagrant/doa/sync.rb:81-92 | A project whose configuration is not a hash aborts, one whose stack is no hash is skipped, and any other is listened to at its root with the entries of its stack |
| Sync.PrefixedUnder | provision/vagrant/doa/sync.rb:57-60 | Every exclusion lies under the watched path |
| Sync.ConditionCommand | provision/vagrant/doa/sync.rb:71-73 | The condition copies the escaped source path to the escaped target path of the rsync user at the target host |
| Sync.Patterns | provision/vagrant/doa/sync.rb:61-67 | The ignore patterns of the exclusions are one per exclusion, in order |
| Sync.RegisteredAppend | provision/vagrant/doa/sync.rb:56-73 | Registering two lists of assets one after the other is registering their concatenation |
| Sync.RegisteredListenTo | provision/vagrant/doa/sync.rb:56 | Each watched asset appends its source path to listen_to, in order, and nothing else does |
| Sync.RegisteredKeeps | provision/vagrant/doa/sync.rb:56-73 | Registering keeps both facts: each exclusion has its own ignore pattern, and each watched path its command |
| Sync.ListenerLists | provision/vagrant/doa/sync.rb:79-101 | A listener built from a new sync object watches the registered assets' source paths in order; each exclusion has its ignore pattern and each watched path its rsync command |
| Sync.Syncer.constructor | provision/vagrant/doa/sync.rb:17-23 | A new sync object starts with empty lists, quotes for a Windows source and the logins of its target |
| Sync.Syncer.ReloadTo | provision/vagrant/doa/sync.rb:25-36 | The logins follow a guest or a host target; any other target keeps the old ones; what is watched does not change |
| Sync.Syncer.AddIgnores | provision/vagrant/doa/sync.rb:61-68 | The ignore patterns of the exclusions are appended one at a time, and nothing else changes |
| Sync.Syncer.Register | provision/vagrant/doa/sync.rb:56-73 | One watched asset is registered and the logins are kept |
| Sync.Syncer.RegisterAll | provision/vagrant/doa/sync.rb:56-73 | Several watched assets are registered one after the other and the logins are kept |
| Sync.Syncer.RunSteps | provision/vagrant/doa/sync.rb:38-78 | The watched assets of a list of steps are registered in order; the first step that aborts ends the loop with its error |
| Sync.Syncer.ListenAssets | provision/vagrant/doa/sync.rb:41-75 | The assets of one type are registered in order; the first abort ends the loop |
| Sync.Syncer.ListenWordPressSite | provision/vagrant/doa/sync.rb:38-78 | The plugins, then the themes, of one WordPress site are registered; the call fails exactly when the site's registrations do |
| Sync.Syncer.CreateListener | provision/vagrant/doa/sync.rb:79-101 | The listener lists for every project of the settings are registered; the call fails exactly when they do |
| Ordering.KeyLessStrict | provision/vagrant/doa/tools.rb:384 | The order keys.sort uses on keys is irreflexive, transitive and asymmetric |
| Ordering.KeyLessTotal | provision/vagrant/doa/tools.rb:384 | Two different keys that `<=>` compares are always ordered one way or the other |
| Ordering.CmpTextFacts | provision/vagrant/doa/tools.rb:384 | String `<=>` is antisymmetric and answers 0 exactly on equal strings |
| Ordering.CompareFacts | provision/vagrant/doa/tools.rb:384 | Key `<=>` (arrays item by item) is antisymmetric, answers 0 exactly on equal keys, and answers only -1, 0 or 1 |
| Ordering.ItemsFacts | provision/vagrant/doa/tools.rb:384 | Array `<=>` is antisymmetric, answers 0 exactly on equal arrays, and answers only -1, 0 or 1 |
| Ordering.CompareTransitive | provision/vagrant/doa/tools.rb:384 | Key `<=>` answering -1 is transitive, arrays included |
| Ordering.ItemsTransitive | provision/vagrant/doa/tools.rb:384 | Array `<=>` answering -1 is transitive |
| Ordering.ArrayKeysCompare | provision/vagrant/doa/tools.rb:384 | Array keys order by their first differing item and then by length; arrays whose first differing items do not compare, and a string against a symbol, do not compare |
| Ordering.InsertByKey | provision/vagrant/doa/tools.rb:384 | Inserting an entry adds exactly that entry to the list |
| Sync.Syncer.ListenType | provision/vagrant/doa/sync.rb:39-76 | One more asset type is registered on top of the earlier ones; an abort is the abort of the type loop |
| Php.WriteOf | provision/vagrant/doa/provisioner/puppet/php.rb:100-119 | A round writes only under its own setting's table key |
| CouchDb.WriteOf | provision/vagrant/doa/provisioner/puppet/couchdb.rb:47-59 | A round writes only under its own setting's key |
| Whitelist.NilPasses | provision/vagrant/doa/provisioner/puppet/meteor.rb:15-23 | nil settings always pass the check |

## Left out

- Puppet.ProcessVersion, Mariadb.CopyToChildren, Mariadb.RequestedBranch, Mariadb.VersionStep, Mariadb.IncludeHieraclass: these straight-line callbacks assign class variables in place in Ruby. Here they are functions from the old state to the new one, with no method of their own. The walk's method applies their result, so the model does not capture a partial update left behind by a callback that raises.
- What happens after an abort: `raise SystemExit` ends the Ruby process, so the model returns the `Err` and says nothing about the state left behind.
- The L10n message texts and their `printf` arguments: an abort is identified by its message constant and the values it names.
- The "error 1", "error 2" and "error 3" prints of `get_default_value`: only the nil default that follows them is modelled.
- The `enqueue_*` methods of `DOA::Provisioner::Puppet`: they are not defined in the modelled files, so each call is a `Call` appended to a list, and whether repeating one is harmless is not modelled.
- I/O and the processes the code starts: the `ssh`/`scp` backticks, `$?`, `puts`, `File`, `Pathname`, `Dir` and the `listen` gem. The command lines are modelled; their execution and exit status are parameters.
- The memory and core probes of `host.rb` (`wmic`, `sysctl`, `/proc/meminfo`), `fqdn` and `HOSTNAME`: they read the running host, so their results are parameters.
- `Host.manage_hosts` and the rest of `host.rb` beyond `calc_guest_defaults` and the OS tests: they edit the system's hosts file.
- The validators for IPv6 addresses (the long RGX_IPV6 pattern), URLs (`URI::regexp` of Ruby's `uri` library) and Puppet-interpolable texts and URIs (their own long patterns): the model takes their answers as the fields of `Validators.Library`.
- Validators.Library: whatever answer is given for an IPv6 address, a URL or a Puppet-interpolable text or URI is taken as is, so the model proves nothing about those patterns.
- The order of the `conditions` hash of a `Sync` listener: it is a map in the model, because the code only looks entries up by path.
- The writing of the listener file and starting or stopping the listeners in `sync.rb` (line 102 on): file output and threads.
- Sync.Syncer.CreateListener: its traversal of the projects and stacks is computed by functions and only the registration of the assets is done by the loops, so the nesting of the Ruby loops is not mirrored one to one.
- Yaml.FormatHashIn: the nested hashes inside the receiver are sorted in the text but are not re-sorted in place; only the receiver's own entries are.
- Puppet.Lookup: the three-argument `Hash#recursive_get` that `puppet_module.rb` calls at lines 81, 83 and 90 is not defined in the modelled files. It is read as a plain lookup that gives nil where a key is missing or a step is not a hash. The message argument of line 81 is not modelled. The path also differs from the source's. `set_params` passes one path for both trees: `path + [param]` at line 83, extended with `:children`, `:children_hash` and the instance name at lines 99 and 108. A plain lookup of that path in `@provided` would find nothing below any group, so the model keeps two paths side by side. The schema is descended through `:children`/`:children_hash`. The provided tree is read by parameter and instance names only, because the `:children`/`:children_hash` segments are dropped (`Resolver.ProvidedFor`, `Resolver.EntryAt`).
- The rest of WordPress's `@supported` schema beyond the debug switches, and of Nginx's beyond `package` and `service`: they are data that `set_params` walks like the modelled parts.
- `Wordpress.setup_presync_excludes` and `Wordpress.setup_listen_ignores`: they are only loops over fixed lists that call `add_excludes`, which is modelled.
- The caching of `get_path` in `wordpress.rb`: it memoises a path computed from the settings.
- Wordpress.SetupAssets: of the second pass over the sync objects (`wordpress.rb` lines 385-397) the model keeps only the NameError. The listen ignores it pushes onto each sync object (line 390) and the paths `get_path` memoises are not modelled. The call to `add_excludes` at line 394 is never reached, because its argument raises first.
- Wordpress.Presync.AddExcludes: a new directory stores the caller's array object itself, not a copy. So the host and guest directories that `setup_presync_excludes` creates share one array, which is also the settings' array, and a later push into one shows in the others. The model stores the values.
- The xdebug and development-sync parts of WordPress `setup` (`wordpress.rb` lines 268-307): they write sync objects and remote files.
- Mariadb.CustomSetup: PF_MOD_MAIN_CLASS is defined neither in `mariadb.rb` nor in the modules around it (`puppet.rb`, `puppet_module.rb`), so as written the ordering raises `NameError`; the model takes the class name as a parameter instead.
- Hashes.SetThenGet: the round trip holds only when the path's last key is not `empty?`. Otherwise `recursive_set!` drops the trailing empty keys (`Hashes.EmptyTailDropped`), and `recursive_get` follows them (`Hashes.EmptyLastKeyMissesRoundTrip`).
- Nginx.CustomSetup: it reads `PM_WP` (`nginx.rb` line 1458), `PROJECTS` (line 1467) and, through `@label`, `SW_NGINX_LABEL` (line 51). `settings.rb` defines none of them, so as written the class does not even load (`NameError`). The model takes them as the parameters `pmWp`, `projectsKey` and `swLabel`.
- Nginx.PlaceOf: the `PM_WP` of lines 1471 and 1473 is the parameter `pmWp`. As written the constant raises `NameError` before the extra argument is passed.
- Nginx.WordPressRaisesAsWritten: the `ArgumentError` it states is reached only once `PM_WP`, `PROJECTS` and `SW_NGINX_LABEL` are defined. As written, the `NameError` of the class body comes first.
- Wordpress.InstallDirOf: `get_install_dir` looks its settings up under `PM_WP` (`wordpress.rb` lines 312-313), and the class body reads `PM_WP` into `@label` (line 14). Neither is defined, so as written the method raises `NameError`. The model starts from the two looked-up values.
- Php.ProvidedVersionRejected: the abort message of `php.rb` lines 115-116 names `Setting::SW_VERSION`, which `settings.rb` does not define. As written the call raises `NameError` instead of printing UNRECOGNIZED_VERSION; the model keeps the abort as `UnrecognizedVersion`.
- `mariadb - copia.rb`: it is a stale copy of `mariadb.rb` that nothing loads.
- `puppet.rb`, the provisioner that collects the queued calls and writes the Puppet and Hiera files: it is not part of this model.
- Integer widths: Ruby integers are unbounded, like Dafny's, so nothing wraps.

## Findings

| source | as written | input that shows it | evidently intended | confidence | as-written member | corrected member |
|---|---|---|---|---|---|---|
| provision/vagrant/doa/tools.rb:28-29 | the port alternative of RGX_IPV4_PORT and RGX_PORT accepts six digits after '65' (`65[0-4][0-9]{3}`), and no alternative matches 65000-65399 or 65500-65529 | '65000' is refused and '650000' accepted | exactly the numbers 0-65535 | not executed | Patterns.PortTokenAsWrittenMisses | Patterns.PortTokenComplete |
| provision/vagrant/doa/tools.rb:34 | RGX_SEMVER matches a version with a pre-release only when it also has build metadata, so `process_version` (puppet_module.rb:300) and MariaDB's `process_param` (mariadb.rb:301) raise on such a version | '1.2.3-rc' is a valid semantic version that RGX_SEMVER does not match | every text RGX_SEMVER_VERSION matches | not executed | Patterns.SemverAsWrittenMissesPreRelease | Patterns.Semver |
| provision/vagrant/doa/sync.rb:61-67 | the wildcard substitution runs after '*' was escaped, so a glob '*' becomes `\.*` | the exclusion '*' gives a pattern that matches only runs of dots | '*' becomes '.*' | not executed | Sync.StarAsWritten | Sync.GlobRoundTrip |
| provision/vagrant/doa/sync.rb:61-67 | the replacement `"\\" + m` reads `\+` as a back-reference, so a '+' is dropped | the exclusion 'a+b' gives the pattern 'ab' | '+' becomes an escaped '+' | not executed | Sync.PlusAsWritten | Sync.GlobRoundTrip |
| provision/vagrant/doa/provisioner/puppet/couchdb.rb:56-57 | the backup directory is checked with `DOA::Tools.valid_unix_abspath`, without the '?'; Tools defines only `valid_unix_abspath?` | any provided 'backupdir' raises NoMethodError | the backup directory is stored when it is an absolute path | not executed | CouchDb.BackupdirAbortsAsWritten | CouchDb.BackupdirStoredWhenAbsolute |
| provision/vagrant/doa/provisioner/puppet/nginx.rb:1471-1473 | `get_puppet_mod_prioritized_def_value` is called with three arguments and takes two; this is reached only once the undefined PM_WP, PROJECTS and SW_NGINX_LABEL are defined, since as written the class body already raises NameError | with those constants defined, any project whose stack holds WordPress raises ArgumentError, so no WordPress virtual host is configured | the project's stack is read first | not executed | Nginx.WordPressRaisesAsWritten | Nginx.WordPressProjectsGrouped |
