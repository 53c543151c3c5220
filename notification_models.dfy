/** The e-mail notification settings and how they are read from environment variables. */
module NotificationModels {
  import opened Wrappers
  import opened Seqs
  import opened Text

  datatype NotificationConfig = NotificationConfig(
    enabled: bool,
    smtpHost: string,
    smtpPort: int,
    smtpUser: string,
    smtpPassword: string,
    smtpUseTls: bool,
    fromAddress: string,
    toAddresses: seq<string>,
    subjectPrefix: string)

  const DefaultSmtpHost: string := "localhost"
  const DefaultSmtpPort: int := 587
  const DefaultFromAddress: string := "orion@example.com"
  const DefaultSubjectPrefix: string := "\U{1F3AF} OFI Signal"

  /**
   * The constructor with every argument defaulted; the recipients' default is an empty
   * frozenset, which `__post_init__` turns into an empty list. `None` stands for that default.
   */
  function NewConfig(enabled: bool, smtpHost: string, smtpPort: int, smtpUser: string, smtpPassword: string,
                     smtpUseTls: bool, fromAddress: string, toAddresses: Option<seq<string>>, subjectPrefix: string)
    : (c: NotificationConfig)
    ensures toAddresses.None? ==> c.toAddresses == []
    ensures toAddresses.Some? ==> c.toAddresses == toAddresses.value
    ensures c.enabled == enabled && c.smtpHost == smtpHost && c.smtpPort == smtpPort && c.fromAddress == fromAddress
  {
    NotificationConfig(enabled, smtpHost, smtpPort, smtpUser, smtpPassword, smtpUseTls, fromAddress,
                       if toAddresses.Some? then toAddresses.value else [], subjectPrefix)
  }

  /** `NotificationConfig()`: disabled, localhost:587, no credentials, TLS on, the default sender, nobody to notify. */
  const DefaultConfig: NotificationConfig :=
    NewConfig(false, DefaultSmtpHost, DefaultSmtpPort, "", "", true, DefaultFromAddress, None, DefaultSubjectPrefix)

  /** `is_valid`: enabled, and a host, a sender and at least one recipient are set. */
  predicate IsValid(c: NotificationConfig) {
    if !c.enabled then false
    else if c.smtpHost == "" then false
    else if c.fromAddress == "" then false
    else if c.toAddresses == [] then false
    else true
  }

  lemma {:induction false} IsValidSpec(c: NotificationConfig)
    ensures IsValid(c) <==> c.enabled && c.smtpHost != "" && c.fromAddress != "" && |c.toAddresses| > 0
    ensures !IsValid(DefaultConfig)
  {
  }

  // ---------------------------------------------------------------- Environment

  type Env = map<string, string>

  function EnvGet(env: Env, name: string, default: string): string {
    if name in env then env[name] else default
  }

  /** `value.lower() == "true"`. */
  predicate IsTrueFlag(value: string) {
    Lower(value) == "true"
  }

  function StripAll(parts: seq<string>): (r: seq<string>)
    ensures |r| == |parts|
    ensures forall j :: 0 <= j < |parts| ==> r[j] == Strip(parts[j])
  {
    seq(|parts|, j requires 0 <= j < |parts| => Strip(parts[j]))
  }

  function NonEmpty(): string -> bool {
    (a: string) => a != ""
  }

  /** `[a.strip() for a in s.split(",") if a.strip()]`, or `[]` for an empty string. */
  function Recipients(s: string): seq<string> {
    if s == "" then [] else Filter(StripAll(Split(s, ',')), NonEmpty())
  }

  /** The ValueError `int()` raises on something that is not an integer literal. */
  const InvalidPortMessage: string := "ValueError: invalid literal for int() with base 10"

  /** `from_env` over an explicit environment; an SMTP_PORT that is not an integer raises. */
  function FromEnv(env: Env): Result<NotificationConfig, string> {
    match ParseInt(EnvGet(env, "SMTP_PORT", "587"))
    case None => Err(InvalidPortMessage)
    case Some(port) =>
      Ok(NewConfig(
        IsTrueFlag(EnvGet(env, "NOTIFICATIONS_ENABLED", "false")),
        EnvGet(env, "SMTP_HOST", DefaultSmtpHost),
        port,
        EnvGet(env, "SMTP_USER", ""),
        EnvGet(env, "SMTP_PASSWORD", ""),
        IsTrueFlag(EnvGet(env, "SMTP_USE_TLS", "true")),
        EnvGet(env, "NOTIFICATION_FROM", DefaultFromAddress),
        Some(Recipients(EnvGet(env, "NOTIFICATION_TO", ""))),
        EnvGet(env, "NOTIFICATION_SUBJECT_PREFIX", DefaultSubjectPrefix)))
  }

  /** "587" parses to 587. */
  lemma {:induction false} DefaultPortParses()
    ensures ParseInt("587") == Some(587)
  {
    assert NatToString(587) == "587" by {
      assert NatToString(5) == "5";
      assert NatToString(58) == NatToString(5) + "8";
    }
    ParseIntOfIntToString(587);
  }

  /** An empty environment gives the defaults. */
  lemma {:induction false} FromEnvDefaults()
    ensures FromEnv(map[]) == Ok(DefaultConfig)
  {
    DefaultPortParses();
    FlagDefaults();
    assert Recipients("") == [];
  }

  /** Notifications are enabled exactly when NOTIFICATIONS_ENABLED is "true" in some mix of cases. */
  lemma {:induction false} FromEnvEnabled(env: Env)
    requires FromEnv(env).Ok?
    ensures var s := EnvGet(env, "NOTIFICATIONS_ENABLED", "false");
      FromEnv(env).value.enabled <==>
        |s| == 4 && (s[0] == 't' || s[0] == 'T') && (s[1] == 'r' || s[1] == 'R')
                 && (s[2] == 'u' || s[2] == 'U') && (s[3] == 'e' || s[3] == 'E')
    ensures "NOTIFICATIONS_ENABLED" !in env ==> !FromEnv(env).value.enabled
    ensures "SMTP_USE_TLS" !in env ==> FromEnv(env).value.smtpUseTls
  {
    FromEnvFlags(env);
    LowerIsTrue(EnvGet(env, "NOTIFICATIONS_ENABLED", "false"));
    FlagDefaults();
    if "NOTIFICATIONS_ENABLED" !in env {
      assert EnvGet(env, "NOTIFICATIONS_ENABLED", "false") == "false";
    }
    if "SMTP_USE_TLS" !in env {
      assert EnvGet(env, "SMTP_USE_TLS", "true") == "true";
    }
  }

  /** The two default flag values: "true" is set and "false" is not. */
  lemma {:induction false} FlagDefaults()
    ensures IsTrueFlag("true") && !IsTrueFlag("false")
  {
    LowerIsTrue("true");
    LowerIsTrue("false");
  }

  /** The two flags of a successful read are the lower-cased comparisons of their variables. */
  lemma {:induction false} FromEnvFlags(env: Env)
    requires FromEnv(env).Ok?
    ensures FromEnv(env).value.enabled == IsTrueFlag(EnvGet(env, "NOTIFICATIONS_ENABLED", "false"))
    ensures FromEnv(env).value.smtpUseTls == IsTrueFlag(EnvGet(env, "SMTP_USE_TLS", "true"))
  {
  }

  /** The port is read as an integer: a rendered integer is read back, and a non-integer is an error. */
  lemma {:induction false} FromEnvPort(env: Env, port: int)
    ensures FromEnv(env).Err? <==> ParseInt(EnvGet(env, "SMTP_PORT", "587")).None?
    ensures FromEnv(env["SMTP_PORT" := IntToString(port)]).Ok?
    ensures FromEnv(env["SMTP_PORT" := IntToString(port)]).value.smtpPort == port
  {
    ParseIntOfIntToString(port);
  }

  predicate WellFormedAddress(a: string) {
    && a != "" && !IsSpace(a[0]) && !IsSpace(a[|a| - 1])
    && forall k :: 0 <= k < |a| ==> a[k] != ','
  }

  /** A non-empty stripped piece of a comma-free string is a well-formed address. */
  lemma {:induction false} StrippedPiece(p: string)
    requires forall k :: 0 <= k < |p| ==> p[k] != ','
    requires Strip(p) != ""
    ensures WellFormedAddress(Strip(p))
  {
    var i := StripStart(p);
    SliceAvoids(p, ',', i, i + |Strip(p)|);
  }

  /** Every recipient is non-empty, has no surrounding whitespace and no comma. */
  lemma {:induction false} RecipientsShape(s: string)
    ensures forall a :: a in Recipients(s) ==> WellFormedAddress(a)
  {
    if s != "" {
      var parts := Split(s, ',');
      var stripped := StripAll(parts);
      FilterMembers(stripped, NonEmpty());
      forall a | a in Recipients(s) ensures WellFormedAddress(a) {
        var j :| 0 <= j < |stripped| && stripped[j] == a;
        StrippedPiece(parts[j]);
      }
    }
  }

  /**
   * Recipients written as a comma-separated list come back in order: for non-empty
   * addresses without commas or surrounding whitespace, reading the joined list gives them.
   */
  lemma {:induction false} RecipientsOfJoin(addresses: seq<string>)
    requires forall j :: 0 <= j < |addresses| ==> WellFormedAddress(addresses[j])
    ensures Recipients(Join(addresses, ",")) == addresses
  {
    if addresses != [] {
      SplitJoin(addresses, ',');
      assert Join(addresses, ",") != "" by {
        JoinNonEmpty(addresses, ",");
      }
      forall j | 0 <= j < |addresses| ensures Strip(addresses[j]) == addresses[j] {
        StripNoEdgeSpace(addresses[j]);
      }
      assert StripAll(addresses) == addresses;
      FilterKeepsAll(addresses, NonEmpty());
    }
  }

  /** Joining pieces whose first is non-empty gives a non-empty string. */
  lemma {:induction false} JoinNonEmpty(parts: seq<string>, sep: string)
    requires parts != [] && parts[0] != ""
    ensures Join(parts, sep) != ""
  {
  }
}
