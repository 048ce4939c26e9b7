/**
 Which provider and model a role uses (crates/oxplow-ai/src/config.rs). Which
 characters are white space is a parameter of the check of a config.
 */
module AiRoles {
  import opened Basics

  datatype BuiltinRole = Main | Summarize | Decide | Assistant {
    function Name(): string {
      match this
      case Main => "main"
      case Summarize => "summarize"
      case Decide => "decide"
      case Assistant => "assistant"
    }

    function Fallback(): Option<BuiltinRole> { if Assistant? then Some(Main) else None }
  }

  datatype Role = Builtin(role: BuiltinRole) | Profile(extension: string, name: string)

  datatype ParseError = Dropped(text: string) | Unknown(text: string)

  const DROPPED_ROLES := ["fast", "embed", "review"]

  function FromName(name: string): Option<BuiltinRole> {
    if name == Main.Name() then Some(Main)
    else if name == Summarize.Name() then Some(Summarize)
    else if name == Decide.Name() then Some(Decide)
    else if name == Assistant.Name() then Some(Assistant)
    else None
  }

  predicate IsLower(c: char) { 'a' <= c <= 'z' }

  predicate IsDigit(c: char) { '0' <= c <= '9' }

  predicate IsProfileName(text: string) {
    && text != "" && IsLower(text[0])
    && forall i | 1 <= i < |text| :: IsLower(text[i]) || IsDigit(text[i]) || text[i] == '_'
  }

  predicate IsExtensionName(text: string) {
    && text != ""
    && forall i | 0 <= i < |text| ::
      IsLower(text[i]) || 'A' <= text[i] <= 'Z' || IsDigit(text[i]) || text[i] in ['-', '_', '.']
  }

  /** Where the first `/` is, or the end. */
  function SlashAt(text: string): (n: nat)
    ensures n <= |text| && (n < |text| ==> text[n] == '/')
    ensures '/' !in text[..n]
  {
    if text == "" || text[0] == '/' then 0
    else
      var n := 1 + SlashAt(text[1..]);
      assert text[..n] == [text[0]] + text[1..][..n - 1];
      n
  }

  function Parse(text: string): Result<Role, ParseError> {
    if FromName(text).Some? then Ok(Builtin(FromName(text).value))
    else if text in DROPPED_ROLES then Err(Dropped(text))
    else
      var n := SlashAt(text);
      if n < |text| && IsExtensionName(text[..n]) && IsProfileName(text[n + 1..])
      then Ok(Profile(text[..n], text[n + 1..]))
      else Err(Unknown(text))
  }

  function Display(role: Role): string {
    match role
    case Builtin(role) => role.Name()
    case Profile(extension, name) => extension + "/" + name
  }

  predicate Sayable(role: Role) { role.Profile? ==> IsExtensionName(role.extension) && IsProfileName(role.name) }

  /** A profile's name: a lower-case letter, then such letters, digits and `_`. */
  lemma ProfileNamesAre(text: string)
    ensures IsProfileName(text)
            <==> text != "" && text[0] in LOWER
                 && forall i | 0 <= i < |text| :: text[i] in LOWER || text[i] in DIGITS || text[i] == '_'
  {
    forall i | 0 <= i < |text| ensures IsLower(text[i]) <==> text[i] in LOWER { AsciiAre(text[i]); }
    forall i | 0 <= i < |text| ensures IsDigit(text[i]) <==> text[i] in DIGITS { AsciiAre(text[i]); }
    hide IsLower, IsDigit, LOWER, DIGITS;
  }

  /** An extension's name: letters, digits, `-`, `_` and `.`. */
  lemma ExtensionNamesAre(text: string)
    ensures IsExtensionName(text)
            <==> text != ""
                 && forall i | 0 <= i < |text| ::
                   text[i] in LOWER || text[i] in UPPER || text[i] in DIGITS || text[i] in "-_."
  {
    forall i | 0 <= i < |text|
      ensures (IsLower(text[i]) <==> text[i] in LOWER) && (IsDigit(text[i]) <==> text[i] in DIGITS)
      ensures 'A' <= text[i] <= 'Z' <==> text[i] in UPPER
    {
      AsciiAre(text[i]);
    }
    hide IsLower, IsDigit, LOWER, UPPER, DIGITS;
  }

  lemma {:induction false} SlashAfter(a: string, b: string)
    requires '/' !in a
    ensures SlashAt(a + "/" + b) == |a|
  {
    var text := a + "/" + b;
    if a != "" {
      assert text[1..] == a[1..] + "/" + b;
      SlashAfter(a[1..], b);
    }
  }

  lemma NoBuiltinHasSlash(text: string)
    requires '/' in text
    ensures FromName(text).None? && text !in DROPPED_ROLES
  {}

  lemma NoSlashInName(text: string)
    requires IsExtensionName(text)
    ensures '/' !in text
  {}

  lemma ProfileParses(extension: string, name: string)
    requires IsExtensionName(extension) && IsProfileName(name)
    ensures Parse(extension + "/" + name) == Ok(Profile(extension, name))
  {
    var text := extension + "/" + name;
    NoSlashInName(extension);
    SlashAfter(extension, name);
    assert text[|extension|] == '/' && text[..|extension|] == extension && text[|extension| + 1..] == name;
    NoBuiltinHasSlash(text);
    hide FromName, IsExtensionName, IsProfileName, SlashAt;
  }

  lemma BuiltinParses(role: BuiltinRole)
    ensures Parse(role.Name()) == Ok(Builtin(role))
  {}

  lemma ParsedIsSaid(text: string)
    requires Parse(text).Ok?
    ensures Sayable(Parse(text).value) && Display(Parse(text).value) == text
  {
    if FromName(text).None? {
      hide FromName, IsExtensionName, IsProfileName;
      var n := SlashAt(text);
      assert n < |text| ==> text == text[..n] + "/" + text[n + 1..];
    }
  }

  /** The four built-in roles have these names. */
  lemma BuiltinNames()
    ensures Parse("main") == Ok(Builtin(Main)) && Parse("summarize") == Ok(Builtin(Summarize))
    ensures Parse("decide") == Ok(Builtin(Decide)) && Parse("assistant") == Ok(Builtin(Assistant))
  {}

  /** Of the texts that are no role, these three are told apart as dropped. */
  lemma DroppedIff(text: string)
    ensures Parse(text) == Err(Dropped(text)) <==> text == "fast" || text == "embed" || text == "review"
    ensures Parse(text).Err? ==> Parse(text).error == Dropped(text) || Parse(text).error == Unknown(text)
  {}

  /** A text reads as a role just when the role is one that can be said, and is said so. */
  lemma ParsesIff(text: string, role: Role)
    ensures Parse(text) == Ok(role) <==> Sayable(role) && Display(role) == text
  {
    if Parse(text) == Ok(role) {
      ParsedIsSaid(text);
    } else if Sayable(role) && Display(role) == text {
      match role
      case Builtin(b) => BuiltinParses(b);
      case Profile(extension, name) => ProfileParses(extension, name);
    }
  }

  // ---- The config

  datatype Provider = Provider(id: string, kind: string, baseUrl: Option<string>)

  datatype Binding = Binding(provider: string, model: string)

  datatype AiProfile = AiProfile(extension: string, name: string, fallback: BuiltinRole)

  datatype AiConfig = AiConfig(providers: seq<Provider>, roles: map<Role, Binding>)

  datatype ConfigError = NoId | Twice(id: string) | NotConfigured(role: Role, provider: string) | NoModel(role: Role)

  predicate Blank(s: string, space: char -> bool) { forall i | 0 <= i < |s| :: space(s[i]) }

  ghost predicate IsProvider(c: AiConfig, id: string) { exists p :: p in c.providers && p.id == id }

  ghost predicate IsValid(c: AiConfig, space: char -> bool) {
    && (forall i | 0 <= i < |c.providers| :: !Blank(c.providers[i].id, space))
    && (forall i, j | 0 <= i < j < |c.providers| :: c.providers[i].id != c.providers[j].id)
    && (forall r | r in c.roles :: IsProvider(c, c.roles[r].provider) && !Blank(c.roles[r].model, space))
  }

  /** The config has the problem that an error names. */
  ghost predicate HasProblem(c: AiConfig, space: char -> bool, error: ConfigError) {
    match error
    case NoId => exists p :: p in c.providers && Blank(p.id, space)
    case Twice(id) => exists i, j :: 0 <= i < j < |c.providers| && c.providers[i].id == c.providers[j].id == id
    case NotConfigured(role, id) => role in c.roles && c.roles[role].provider == id && !IsProvider(c, id)
    case NoModel(role) => role in c.roles && Blank(c.roles[role].model, space)
  }

  method Validate(c: AiConfig, space: char -> bool) returns (r: Result<(), ConfigError>)
    ensures r.Ok? <==> IsValid(c, space)
    ensures r.Err? ==> HasProblem(c, space, r.error)
  {
    var seen: set<string> := {};
    for i := 0 to |c.providers|
      invariant forall j | 0 <= j < i :: !Blank(c.providers[j].id, space)
      invariant forall j, k | 0 <= j < k < i :: c.providers[j].id != c.providers[k].id
      invariant forall id :: id in seen <==> exists j :: 0 <= j < i && c.providers[j].id == id
    {
      var id := c.providers[i].id;
      if Blank(id, space) { return Err(NoId); }
      if id in seen { return Err(Twice(id)); }
      seen := seen + {id};
    }
    assert forall id :: id in seen <==> IsProvider(c, id) by {
      forall id ensures id in seen <==> IsProvider(c, id) {
        if id in seen {
          var j :| 0 <= j < |c.providers| && c.providers[j].id == id;
          assert c.providers[j] in c.providers;
        }
      }
    }
    var left := c.roles.Keys;
    while left != {}
      invariant left <= c.roles.Keys
      invariant forall r | r in c.roles.Keys - left :: c.roles[r].provider in seen && !Blank(c.roles[r].model, space)
      decreases |left|
    {
      var role :| role in left;
      if c.roles[role].provider !in seen { return Err(NotConfigured(role, c.roles[role].provider)); }
      if Blank(c.roles[role].model, space) { return Err(NoModel(role)); }
      left := left - {role};
    }
    r := Ok(());
  }

  function FindProfile(profiles: seq<AiProfile>, role: Role): Option<AiProfile> {
    if profiles == [] then None
    else if Profile(profiles[0].extension, profiles[0].name) == role then Some(profiles[0])
    else FindProfile(profiles[1..], role)
  }

  function FindProvider(providers: seq<Provider>, id: string): (p: Option<Provider>)
    ensures p.Some? ==> p.value in providers && p.value.id == id
    ensures p.None? ==> forall q | q in providers :: q.id != id
  {
    if providers == [] then None
    else if providers[0].id == id then Some(providers[0])
    else FindProvider(providers[1..], id)
  }

  /** How many fallbacks there can be from here. */
  function Left(role: Role): nat { if role.Profile? then 2 else if role.role.Assistant? then 1 else 0 }

  function Resolve(c: AiConfig, role: Role, profiles: seq<AiProfile>): Option<(Provider, Binding)>
    decreases Left(role)
  {
    if role.Profile? && FindProfile(profiles, role).None? then None
    else
      var fallback := if role.Builtin? then role.role.Fallback() else Some(FindProfile(profiles, role).value.fallback);
      if role !in c.roles then
        if fallback.None? then None else Resolve(c, Builtin(fallback.value), profiles)
      else
        match FindProvider(c.providers, c.roles[role].provider)
        case None => None
        case Some(p) => Some((p, c.roles[role]))
  }

  /** The first profile that declares `role` is the one at `i`. */
  ghost predicate DeclaredAt(profiles: seq<AiProfile>, role: Role, i: nat) {
    && role.Profile? && i < |profiles|
    && profiles[i].extension == role.extension && profiles[i].name == role.name
    && forall j | 0 <= j < i :: !(profiles[j].extension == role.extension && profiles[j].name == role.name)
  }

  function ChainOfFallback(role: BuiltinRole): seq<Role> {
    if role.Assistant? then [Builtin(Assistant), Builtin(Main)] else [Builtin(role)]
  }

  /** The roles a role stands for, itself first: none for a profile nobody declares. */
  ghost predicate IsChain(chain: seq<Role>, role: Role, profiles: seq<AiProfile>) {
    match role
    case Builtin(Assistant) => chain == [role, Builtin(Main)]
    case Builtin(_) => chain == [role]
    case Profile(_, _) =>
      if exists i: nat :: DeclaredAt(profiles, role, i) then
        exists i: nat :: DeclaredAt(profiles, role, i) && chain == [role] + ChainOfFallback(profiles[i].fallback)
      else chain == []
  }

  lemma {:induction false} FindsDeclared(profiles: seq<AiProfile>, role: Role, i: nat)
    requires DeclaredAt(profiles, role, i)
    ensures FindProfile(profiles, role) == Some(profiles[i])
  {
    if i > 0 {
      assert !(profiles[0].extension == role.extension && profiles[0].name == role.name);
      FindsDeclared(profiles[1..], role, i - 1);
    }
  }

  lemma {:induction false} FoundIsDeclared(profiles: seq<AiProfile>, role: Role) returns (i: nat)
    requires FindProfile(profiles, role).Some?
    ensures DeclaredAt(profiles, role, i)
  {
    i := 0;
    if Profile(profiles[0].extension, profiles[0].name) != role {
      i := FoundIsDeclared(profiles[1..], role);
      i := i + 1;
    }
  }

  lemma ChainOfProfile(role: Role, profiles: seq<AiProfile>, chain: seq<Role>, i: nat)
    requires IsChain(chain, role, profiles) && DeclaredAt(profiles, role, i)
    ensures chain == [role] + ChainOfFallback(profiles[i].fallback)
  {
    var j: nat :| DeclaredAt(profiles, role, j) && chain == [role] + ChainOfFallback(profiles[j].fallback);
    assert !(i < j) && !(j < i);
  }

  lemma ChainOfNone(role: Role, profiles: seq<AiProfile>, chain: seq<Role>)
    requires IsChain(chain, role, profiles) && role.Profile? && FindProfile(profiles, role).None?
    ensures chain == []
  {
    if i: nat :| DeclaredAt(profiles, role, i) { FindsDeclared(profiles, role, i); }
  }

  lemma ChainIsFound(role: Role, profiles: seq<AiProfile>, chain: seq<Role>)
    requires IsChain(chain, role, profiles)
    ensures chain == [] <==> role.Profile? && FindProfile(profiles, role).None?
    ensures chain != [] ==> chain[0] == role
    ensures role.Profile? && chain != [] ==>
              |chain| > 1 && chain[1] == Builtin(FindProfile(profiles, role).value.fallback)
    ensures role.Builtin? && |chain| > 1 ==> role.role.Assistant? && chain[1] == Builtin(Main)
  {
    if role.Profile? {
      if FindProfile(profiles, role).Some? {
        var i := FoundIsDeclared(profiles, role);
        FindsDeclared(profiles, role, i);
        ChainOfProfile(role, profiles, chain, i);
      } else {
        ChainOfNone(role, profiles, chain);
      }
    }
  }

  /** The first of the roles that is bound, or past the end. */
  function FirstBound(chain: seq<Role>, roles: map<Role, Binding>): (n: nat)
    ensures n <= |chain| && (n < |chain| ==> chain[n] in roles)
    ensures forall i | 0 <= i < n :: chain[i] !in roles
  {
    if chain == [] || chain[0] in roles then 0 else 1 + FirstBound(chain[1..], roles)
  }

  lemma OneProvider(c: AiConfig, space: char -> bool, role: Role)
    requires IsValid(c, space) && role in c.roles
    ensures FindProvider(c.providers, c.roles[role].provider).Some?
    ensures forall p | p in c.providers ::
              p.id == c.roles[role].provider <==> p == FindProvider(c.providers, c.roles[role].provider).value
  {
    assert IsProvider(c, c.roles[role].provider);
  }

  /** A profile nobody declares resolves to nothing, bound or not. */
  lemma UndeclaredIsNothing(c: AiConfig, role: Role, profiles: seq<AiProfile>)
    requires role.Profile? && forall i | 0 <= i < |profiles| :: Profile(profiles[i].extension, profiles[i].name) != role
    ensures Resolve(c, role, profiles) == None
  {
    if FindProfile(profiles, role).Some? {
      var i := FoundIsDeclared(profiles, role);
    }
  }

  /** A declared profile that is not bound resolves as the fallback of the first that
      declares it. */
  lemma UnboundFallsBack(c: AiConfig, role: Role, profiles: seq<AiProfile>, i: nat)
    requires role !in c.roles && DeclaredAt(profiles, role, i)
    ensures Resolve(c, role, profiles) == Resolve(c, Builtin(profiles[i].fallback), profiles)
  {
    FindsDeclared(profiles, role, i);
  }

  lemma RestOfChain(role: Role, profiles: seq<AiProfile>, chain: seq<Role>)
    requires IsChain(chain, role, profiles) && |chain| > 1
    ensures chain[0] == role && IsChain(chain[1..], chain[1], profiles) && chain[1].Builtin?
  {}

  /** In a valid config a role resolves just when some role of its chain is bound, and
      then to the first such role's binding and the one provider that it names. */
  lemma {:induction false} ResolvesIff(
    c: AiConfig, space: char -> bool, role: Role, profiles: seq<AiProfile>, chain: seq<Role>)
    requires IsValid(c, space) && IsChain(chain, role, profiles)
    ensures var r, n := Resolve(c, role, profiles), FirstBound(chain, c.roles);
            && (r.Some? <==> n < |chain|)
            && (r.Some? ==> r.value.1 == c.roles[chain[n]] && r.value.0 in c.providers)
            && (r.Some? ==> forall p | p in c.providers :: p.id == c.roles[chain[n]].provider <==> p == r.value.0)
    decreases Left(role)
  {
    ChainIsFound(role, profiles, chain);
    if chain != [] {
      if role in c.roles {
        OneProvider(c, space, role);
        hide IsValid, FindProvider, FindProfile;
      } else if |chain| > 1 {
        RestOfChain(role, profiles, chain);
        ResolvesIff(c, space, chain[1], profiles, chain[1..]);
        hide IsValid, FindProvider, IsChain;
        assert Resolve(c, role, profiles) == Resolve(c, chain[1], profiles);
      }
    }
  }
}
