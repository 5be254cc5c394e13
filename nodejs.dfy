/**
 * The NodeJS module class: its `@supported` schema as data, and what the resolver makes of
 * some of its entries.
 */
module Nodejs {
  import opened Values
  import opened Outcome
  import opened Patterns
  import opened Validators
  import opened Puppet
  import opened Schema
  import opened Resolver

  const ClassName := "DOA::Provisioner::Puppet::NodeJS"

  /** `DOA::Guest::USER`. */
  const GuestUser := "vagrant"

  const HieraClassList: Value := StrList(["nodestack"])

  // ----- the schema -----

  function DirEntry(): Pair
  {
    Entry("dir", [Opt("expect", Sym("unix_abspath")), Opt("maps_to", Str("nodestack::nvm_dir"))])
  }

  function PathEntry(): Pair
  {
    Entry("path", [Opt("children", Hash([
      Entry("home", [Opt("expect", Sym("unix_abspath")), Opt("maps_to", Str("nodestack::nvm_home"))]),
      Entry("profile", [Opt("expect", Sym("unix_abspath")), Opt("maps_to", Str("nodestack::nvm_profile_path"))])]))])
  }

  function RefetchEntry(): Pair
  {
    Entry("refetch", [Opt("expect", Sym("boolean")), Opt("maps_to", Str("nodestack::nvm_refetch")), Opt("mod_def", Str("false"))])
  }

  function RepoEntry(): Pair
  {
    Entry("repo", [Opt("expect", Sym("url")), Opt("maps_to", Str("nodestack::nvm_nvm_repo")),
                   Opt("mod_def", Str("https://github.com/creationix/nvm.git"))])
  }

  function UserEntry(): Pair
  {
    Entry("user", [Opt("expect", Sym("puppet_interpolable_string")), Opt("maps_to", Str("nodestack::nvm_user")),
                   Opt("doa_def", Str(GuestUser))])
  }

  function VersionEntry(): Pair
  {
    Entry("version", [Opt("expect", Sym("semver_version")), Opt("maps_to", Str("nodestack::nvm_version")), Opt("mod_def", Str("0.29.0"))])
  }

  function ManageEntry(): Pair
  {
    Entry("manage", [Opt("children", Hash([
      Entry("dependencies", [Opt("expect", Sym("boolean")), Opt("maps_to", Str("nodestack::nvm_manage_dependencies")), Opt("mod_def", Str("true"))]),
      Entry("profile", [Opt("expect", Sym("boolean")), Opt("maps_to", Str("nodestack::nvm_manage_profile")), Opt("mod_def", Str("true"))]),
      Entry("user", [Opt("expect", Sym("boolean")), Opt("maps_to", Str("nodestack::nvm_manage_user")), Opt("mod_def", Str("false"))])]))])
  }

  /** The children of 'nvm'. */
  function NvmChildren(): seq<Pair>
  {
    [DirEntry(), PathEntry(), RefetchEntry(), RepoEntry(), UserEntry(), VersionEntry(), ManageEntry()]
  }

  /** The schema of one entry of 'versions'. */
  function VersionSchema(): seq<Pair>
  {
    [Entry("default", [Opt("expect", Sym("boolean")), Opt("mod_def", Str("false"))]),
     Entry("nvm_dir", [Opt("expect", Sym("unix_abspath"))]),
     Entry("source", [Opt("maps_to", Str("from_source")), Opt("expect", Sym("boolean")), Opt("mod_def", Str("false"))]),
     Entry("user", [Opt("expect", Sym("string"))])]
  }

  function VersionsEntry(): Pair
  {
    Entry("versions", [Opt("maps_to", Str("nodestack::versions")), Opt("children_hash", Hash(VersionSchema()))])
  }

  /** `@supported`. */
  function Supported(): seq<Pair>
  {
    [Entry("nvm", [Opt("children", Hash(NvmChildren()))]), VersionsEntry(), Entry("packages", [])]
  }

  /** The resolver acting for this class. */
  predicate IsNodejs(e: Env)
  {
    e.kind == OtherClass(ClassName) && e.c.supported == Supported()
  }

  // ----- what each entry's options say -----

  /** Line 29: the single `:expect` symbol of 'dir' is used as a one-element list. */
  lemma DirExpectNormalised()
    ensures ValidatorTexts(DirEntry().val.entries) == Ok([TagText(Sym("unix_abspath"))])
  {
    assert TagNamed("unix_abspath") == Some(TUnixAbspath);
    SingleExpect(DirEntry().val.entries, Sym("unix_abspath"));
  }

  lemma UserShape(p: Platform)
    ensures var cfg := UserEntry().val.entries;
      IsLeaf(cfg) && !HasKey(cfg, KCbProcess)
      && GetDefaultValue(cfg, DoaDef, p) == Ok(Str(GuestUser)) && GetDefaultValue(cfg, ModDef, p) == Ok(Nil)
  {
    PlainDefault(UserEntry().val.entries, DoaDef, p);
  }

  lemma UserWriting()
    ensures var cfg := UserEntry().val.entries;
      !FlagsExpected(cfg) && Wrapped(cfg) && MapsTo(cfg, Str("user")) == Ok(Str("nodestack::nvm_user"))
  {
    var cfg := UserEntry().val.entries;
    assert TagNamed("puppet_interpolable_string") == Some(TPuppetInterpolableString);
    assert AsList(At(cfg, KExpect))[0] == Sym("puppet_interpolable_string");
    MapsToNamed(cfg, Str("user"), "nodestack::nvm_user");
  }

  lemma RefetchShape(p: Platform)
    ensures var cfg := RefetchEntry().val.entries;
      IsLeaf(cfg) && !HasKey(cfg, KCbProcess) && !HasKey(cfg, KExclude)
      && GetDefaultValue(cfg, DoaDef, p) == Ok(Nil) && GetDefaultValue(cfg, ModDef, p) == Ok(Str("false"))
  {
    PlainDefault(RefetchEntry().val.entries, ModDef, p);
  }

  lemma VersionShape(p: Platform)
    ensures var cfg := VersionEntry().val.entries;
      IsLeaf(cfg) && !HasKey(cfg, KCbProcess) && !HasKey(cfg, KExclude) && !HasKey(cfg, KAllow)
      && GetDefaultValue(cfg, DoaDef, p) == Ok(Nil) && GetDefaultValue(cfg, ModDef, p) == Ok(Str("0.29.0"))
  {
    PlainDefault(VersionEntry().val.entries, ModDef, p);
  }

  lemma VersionWriting()
    ensures var cfg := VersionEntry().val.entries;
      !FlagsExpected(cfg) && Wrapped(cfg) && MapsTo(cfg, Str("version")) == Ok(Str("nodestack::nvm_version"))
  {
    var cfg := VersionEntry().val.entries;
    assert TagNamed("semver_version") == Some(TSemverVersion);
    assert AsList(At(cfg, KExpect))[0] == Sym("semver_version");
    MapsToNamed(cfg, Str("version"), "nodestack::nvm_version");
  }

  lemma VersionValidator()
    ensures ValidatorTexts(VersionEntry().val.entries) == Ok([TagText(Sym("semver_version"))])
  {
    assert TagNamed("semver_version") == Some(TSemverVersion);
    SingleExpect(VersionEntry().val.entries, Sym("semver_version"));
  }

  lemma SourceShape(p: Platform)
    ensures var cfg := VersionSchema()[2].val.entries;
      IsLeaf(cfg) && !HasKey(cfg, KCbProcess) && !HasKey(cfg, KExclude) && !HasKey(cfg, KAllow)
      && GetDefaultValue(cfg, DoaDef, p) == Ok(Nil) && GetDefaultValue(cfg, ModDef, p) == Ok(Str("false"))
  {
    PlainDefault(VersionSchema()[2].val.entries, ModDef, p);
  }

  lemma SourceWriting()
    ensures var cfg := VersionSchema()[2].val.entries;
      !FlagsExpected(cfg) && !Wrapped(cfg) && MapsTo(cfg, Str("source")) == Ok(Str("from_source"))
      && ValidatorTexts(cfg) == Ok([TagText(Sym("boolean"))])
  {
    var cfg := VersionSchema()[2].val.entries;
    assert TagNamed("boolean") == Some(TBoolean);
    assert AsList(At(cfg, KExpect)) == [Sym("boolean")];
    MapsToNamed(cfg, Str("source"), "from_source");
    SingleExpect(cfg, Sym("boolean"));
  }

  lemma VersionsShape()
    ensures var cfg := VersionsEntry().val.entries;
      !HasKey(cfg, KChildren) && HasKey(cfg, KChildrenHash) && At(cfg, KChildrenHash) == Hash(VersionSchema())
      && !HasKey(cfg, KCbProcess) && !HasKey(cfg, KExclude) && !FlagsExpected(cfg) && !Wrapped(cfg)
      && MapsTo(cfg, Str("versions")) == Ok(Str("nodestack::versions"))
  {
    MapsToNamed(VersionsEntry().val.entries, Str("versions"), "nodestack::versions");
  }

  // ----- what the resolver makes of it -----

  /** Lines 63-67: an absent nvm.user, with only a `:doa_def`, is written quoted under nodestack::nvm_user. */
  lemma NvmUserAbsent(e: Env, st: St, queue: seq<Pair>)
    requires Lookup(st.provided, [Str("nvm"), Str("user")]) == Nil
    ensures var r := EntryAt(e, st, NvmChildren(), 4, [Str("nvm")], queue);
      r.Ok? && r.value.st == st && Get(r.value.queue, Str("nodestack::nvm_user")) == Some(Str(Quoted(GuestUser)))
  {
    var es := NvmChildren();
    assert es[4] == UserEntry();
    assert [Str("nvm")] + [es[4].key] == [Str("nvm"), Str("user")];
    UserShape(e.c.platform);
    UserWriting();
    AbsentOverridesModDef(e, st, es, 4, [Str("nvm")], queue, Str(GuestUser), Nil, Str("nodestack::nvm_user"));
  }

  /** Lines 50-54: a refetch of 'false' (or false) is the module's own default and is not written. */
  lemma RefetchFalseNotWritten(e: Env, st: St, queue: seq<Pair>)
    requires var v := Lookup(st.provided, [Str("nvm"), Str("refetch")]); v == Str("false") || v == Bool(false)
    ensures EntryAt(e, st, NvmChildren(), 2, [Str("nvm")], queue) == Ok(Resolved(queue, st))
  {
    var es := NvmChildren();
    assert es[2] == RefetchEntry();
    assert [Str("nvm")] + [es[2].key] == [Str("nvm"), Str("refetch")];
    RefetchShape(e.c.platform);
    ProvidedModDef(e, st, es, 2, [Str("nvm")], queue);
  }

  /** `valid_semver_version?` answers for nvm.version whether the text is MAJOR.MINOR.PATCH. */
  lemma VersionAnswers(e: Env, version: string)
    ensures Answers(e, Sym("semver_version"), Str(version), SemverVersion(version))
  {
    SemverValidatorsExactly(version);
    assert TagNamed("semver_version") == Some(TSemverVersion);
  }

  /** A leading 'v' is no part of a semantic version. */
  lemma LeadingVRejected()
    ensures !SemverVersion("v0.29.0")
  {
    SemverStartsWithDigit("v0.29.0");
  }

  /** Lines 71-75: nvm.version takes MAJOR.MINOR.PATCH only, so 'v0.29.0' aborts the walk. */
  lemma VersionWithLeadingV(e: Env, st: St, queue: seq<Pair>)
    requires Lookup(st.provided, [Str("nvm"), Str("version")]) == Str("v0.29.0")
    ensures EntryAt(e, st, NvmChildren(), 5, [Str("nvm")], queue) == Err(UnsupportedParamValue("version"))
  {
    var es := NvmChildren();
    assert es[5] == VersionEntry();
    assert [Str("nvm")] + [es[5].key] == [Str("nvm"), Str("version")];
    VersionShape(e.c.platform);
    VersionWriting();
    VersionValidator();
    LeadingVRejected();
    VersionAnswers(e, "v0.29.0");
    RejectedAborts(e, st, es, 5, [Str("nvm")], queue, Sym("semver_version"));
  }

  /** Lines 71-75: an accepted version other than '0.29.0' is written quoted under nodestack::nvm_version. */
  lemma VersionWritten(e: Env, st: St, queue: seq<Pair>, version: string)
    requires Lookup(st.provided, [Str("nvm"), Str("version")]) == Str(version)
    requires SemverVersion(version) && version != "0.29.0"
    ensures var r := EntryAt(e, st, NvmChildren(), 5, [Str("nvm")], queue);
      r.Ok? && Get(r.value.queue, Str("nodestack::nvm_version")) == Some(Str(Quoted(version)))
  {
    var es := NvmChildren();
    assert es[5] == VersionEntry();
    assert [Str("nvm")] + [es[5].key] == [Str("nvm"), Str("version")];
    VersionShape(e.c.platform);
    VersionWriting();
    VersionValidator();
    VersionAnswers(e, version);
    AcceptedWritten(e, st, es, 5, [Str("nvm")], queue, Sym("semver_version"), Str("nodestack::nvm_version"));
  }

  /**
   * Lines 103-122: a provided hash of versions is written under nodestack::versions as one hash
   * whose keys are exactly the quoted version names.
   */
  lemma VersionsByQuotedName(e: Env, st: St, queue: seq<Pair>, key: Value)
    requires var p := Lookup(st.provided, [Str("versions")]); p.Hash? && p.entries != []
    requires Instances(e, st, Hash(VersionSchema()), Lookup(st.provided, [Str("versions")]).entries, 0, [Str("versions")], []).Ok?
    ensures var insts := Lookup(st.provided, [Str("versions")]).entries;
      var inst := Instances(e, st, Hash(VersionSchema()), insts, 0, [Str("versions")], []).value;
      var r := EntryAt(e, st, Supported(), 1, [], queue);
      r.Ok? && Get(r.value.queue, Str("nodestack::versions")) == Some(Hash(inst.queue))
      && (HasKey(inst.queue, key) <==> exists j | 0 <= j < |insts| :: key == InstanceKey(insts[j].key))
  {
    VersionsHashWritten(e, st, queue);
    var insts := Lookup(st.provided, [Str("versions")]).entries;
    InstancesKeyed(e, st, Hash(VersionSchema()), insts, 0, [Str("versions")], [], key);
  }

  /** Lines 103-122: the instances' queue is written as one hash under nodestack::versions. */
  lemma VersionsHashWritten(e: Env, st: St, queue: seq<Pair>)
    requires var p := Lookup(st.provided, [Str("versions")]); p.Hash? && p.entries != []
    requires Instances(e, st, Hash(VersionSchema()), Lookup(st.provided, [Str("versions")]).entries, 0, [Str("versions")], []).Ok?
    ensures var insts := Lookup(st.provided, [Str("versions")]).entries;
      var inst := Instances(e, st, Hash(VersionSchema()), insts, 0, [Str("versions")], []).value;
      var r := EntryAt(e, st, Supported(), 1, [], queue);
      r.Ok? && Get(r.value.queue, Str("nodestack::versions")) == Some(Hash(inst.queue))
  {
    var es := Supported();
    assert es[1] == VersionsEntry();
    assert [] + [es[1].key] == [Str("versions")];
    VersionsShape();
    ChildrenHashWritten(e, st, es, 1, [], queue, Str("nodestack::versions"));
  }

  /** `valid_boolean?` takes true. */
  lemma BooleanAnswers(e: Env)
    ensures Answers(e, Sym("boolean"), Bool(true), true)
  {
    assert TagNamed("boolean") == Some(TBoolean);
  }

  /** Lines 113-117: inside a version, a true 'source' is written as 'true' under from_source. */
  lemma SourceAsFromSource(e: Env, st: St, name: Value, queue: seq<Pair>)
    requires Lookup(st.provided, [Str("versions"), name, Str("source")]) == Bool(true)
    ensures var r := EntryAt(e, st, VersionSchema(), 2, [Str("versions"), name], queue);
      r.Ok? && Get(r.value.queue, Str("from_source")) == Some(Str("true"))
  {
    var es := VersionSchema();
    assert [Str("versions"), name] + [es[2].key] == [Str("versions"), name, Str("source")];
    SourceShape(e.c.platform);
    SourceWriting();
    BooleanAnswers(e);
    AcceptedWritten(e, st, es, 2, [Str("versions"), name], queue, Sym("boolean"), Str("from_source"));
  }

  /** Lines 123-124: 'packages' has no options: absent it writes nothing. */
  lemma PackagesAbsent(e: Env, st: St, queue: seq<Pair>)
    requires Lookup(st.provided, [Str("packages")]) == Nil
    ensures EntryAt(e, st, Supported(), 2, [], queue) == Ok(Resolved(queue, st))
  {
    var es := Supported();
    assert es[2] == Entry("packages", []);
    assert [] + [es[2].key] == [Str("packages")];
    AbsentLeaf(e, st, es, 2, [], queue);
  }

  /** Lines 123-124: a provided 'packages' passes unvalidated and unquoted under its own name. */
  lemma PackagesPassThrough(e: Env, st: St, queue: seq<Pair>)
    requires Lookup(st.provided, [Str("packages")]) != Nil
    ensures var p := Lookup(st.provided, [Str("packages")]);
      var r := EntryAt(e, st, Supported(), 2, [], queue);
      r.Ok? && r.value.st == st && Get(r.value.queue, Str("packages")) == Some(if p.Hash? || p.Arr? then p else Str(ToS(p)))
  {
    var es := Supported();
    assert es[2] == Entry("packages", []);
    var p := Lookup(st.provided, [Str("packages")]);
    assert [] + [es[2].key] == [Str("packages")];
    ValidLeafEmits(e, st, es, 2, [], queue, [], st);
    EmitWrites([], Str("packages"), if p.Hash? || p.Arr? then p else Str(ToS(p)), Nil, queue);
  }
}
